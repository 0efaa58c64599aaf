/** The ONTAP client's read-side rules over `*-get-iter` responses: the
    single-record lookups, the Qtree count, the existence tests, the LUN
    resize size check, and the scans that filter or flatten a response's
    attribute list. A response is an input value: the transport error,
    the result's status triple, the reported record count and the attribute
    list (None where the source's `AttributesListPtr` is nil). */
module Records {
  import opened Wrappers
  import opened Strs
  import opened ZapiErrors

  datatype IterResponse<T> = IterResponse(
    callErr: Option<Error>,
    result: ZapiError,
    numRecords: nat,
    attributesList: Option<seq<T>>)

  /** `GetError(response, err)` for a response that is present. */
  function CallError<T>(resp: IterResponse<T>): Option<Error>
  {
    GetError(Some(resp.result), resp.callErr)
  }

  /** The records the list contains, nothing where the list is nil. */
  function Entries<T>(resp: IterResponse<T>): seq<T>
  {
    if resp.attributesList.Some? then resp.attributesList.value else []
  }

  // ---------------------------------------------------------------------
  // Single-record lookups

  datatype RecordKind = IgroupRecord | LunRecord | FlexvolRecord | QtreeRecord | TreeQuotaRecord

  function NotFoundText(kind: RecordKind, name: string): string
  {
    match kind
    case IgroupRecord => "igroup " + name + " not found"
    case LunRecord => "LUN " + name + " not found"
    case FlexvolRecord => "flexvol " + name + " not found"
    case QtreeRecord => "qtree " + name + " not found"
    case TreeQuotaRecord => "tree quota for " + name + " not found"
  }

  function MoreThanOneText(kind: RecordKind, name: string): string
  {
    match kind
    case IgroupRecord => "more than one igroup " + name + " found"
    case LunRecord => "more than one LUN " + name + " found"
    case FlexvolRecord => "more than one Flexvol " + name + " found"
    case QtreeRecord => "more than one qtree " + name + " found"
    case TreeQuotaRecord => "more than one tree quota for " + name + " found"
  }

  /** The lookup pattern shared by IgroupGet, LunGet, QtreeGet,
      volumeGetIterCommon and QuotaGetEntry. Only the transport error is
      checked, not the result status. A reported count of exactly one with
      a nil or empty list is "not found". */
  function SingleRecord<T>(kind: RecordKind, name: string, resp: IterResponse<T>): (r: Result<T, Error>)
    ensures r.Success? <==>
              resp.callErr.None? && resp.numRecords == 1 && |Entries(resp)| > 0
    ensures r.Success? ==> r.value == Entries(resp)[0]
    ensures resp.callErr.Some? ==> r == Failure(resp.callErr.value)
    ensures resp.callErr.None? && resp.numRecords > 1 ==>
              r == Failure(Message(MoreThanOneText(kind, name)))
    ensures resp.callErr.None? && resp.numRecords == 0 ==>
              r == Failure(Message(NotFoundText(kind, name)))
    ensures resp.callErr.None? && resp.numRecords == 1 && r.Failure? ==>
              r == Failure(Message(NotFoundText(kind, name)))
  {
    if resp.callErr.Some? then Failure(resp.callErr.value)
    else if resp.numRecords == 0 then Failure(Message(NotFoundText(kind, name)))
    else if resp.numRecords > 1 then Failure(Message(MoreThanOneText(kind, name)))
    else if resp.attributesList.None? then Failure(Message(NotFoundText(kind, name)))
    else if |resp.attributesList.value| > 0 then Success(resp.attributesList.value[0])
    else Failure(Message(NotFoundText(kind, name)))
  }

  /** The failure a lookup reports when the call itself went through. */
  predicate LookupFailureText(kind: RecordKind, name: string, e: Error)
  {
    e == Message(NotFoundText(kind, name)) || e == Message(MoreThanOneText(kind, name))
  }

  function IgroupGet<T>(initiatorGroupName: string, resp: IterResponse<T>): (r: Result<T, Error>)
    ensures r.Failure? && resp.callErr.None? ==> LookupFailureText(IgroupRecord, initiatorGroupName, r.error)
    ensures r.Success? ==> resp.numRecords == 1 && |Entries(resp)| > 0 && r.value == Entries(resp)[0]
  {
    SingleRecord(IgroupRecord, initiatorGroupName, resp)
  }

  function LunGet<T>(path: string, resp: IterResponse<T>): (r: Result<T, Error>)
    ensures r.Failure? && resp.callErr.None? ==> LookupFailureText(LunRecord, path, r.error)
    ensures r.Success? ==> resp.numRecords == 1 && |Entries(resp)| > 0 && r.value == Entries(resp)[0]
  {
    SingleRecord(LunRecord, path, resp)
  }

  function VolumeGetIterCommon<T>(name: string, resp: IterResponse<T>): (r: Result<T, Error>)
    ensures r.Failure? && resp.callErr.None? ==> LookupFailureText(FlexvolRecord, name, r.error)
    ensures r.Success? ==> resp.numRecords == 1 && |Entries(resp)| > 0 && r.value == Entries(resp)[0]
  {
    SingleRecord(FlexvolRecord, name, resp)
  }

  function QtreeGet<T>(name: string, resp: IterResponse<T>): (r: Result<T, Error>)
    ensures r.Failure? && resp.callErr.None? ==> LookupFailureText(QtreeRecord, name, r.error)
    ensures r.Success? ==> resp.numRecords == 1 && |Entries(resp)| > 0 && r.value == Entries(resp)[0]
  {
    SingleRecord(QtreeRecord, name, resp)
  }

  function QuotaGetEntry<T>(target: string, resp: IterResponse<T>): (r: Result<T, Error>)
    ensures r.Failure? && resp.callErr.None? ==> LookupFailureText(TreeQuotaRecord, target, r.error)
    ensures r.Success? ==> resp.numRecords == 1 && |Entries(resp)| > 0 && r.value == Entries(resp)[0]
  {
    SingleRecord(TreeQuotaRecord, target, resp)
  }

  // ---------------------------------------------------------------------
  // Counts, existence and sizes

  /** `QtreeCount`: a Flexvol always reports its own qtree, which is not
      counted, so the count is one less than the records (never below 0). */
  function QtreeCount<T>(resp: IterResponse<T>): (r: Result<int, Error>)
    ensures r.Failure? <==> CallError(resp).Some?
    ensures r.Failure? ==> r.error == CallError(resp).value
    ensures r.Success? ==> 0 <= r.value <= resp.numRecords
    ensures r.Success? && resp.numRecords >= 1 ==> r.value + 1 == resp.numRecords
  {
    var err := CallError(resp);
    if err.Some? then Failure(err.value)
    else if resp.numRecords == 0 || resp.numRecords == 1 then Success(0)
    else Success(resp.numRecords - 1)
  }

  /** A response with only the status triple. */
  datatype StatusResponse = StatusResponse(callErr: Option<Error>, result: ZapiError)

  /** The two errno values that mean "no such volume". */
  predicate IsNotFoundCode(code: string)
  {
    code == EOBJECTNOTFOUND || code == EVOLUMEDOESNOTEXIST
  }

  /** `VolumeExists`: a failed status with a not-found code means "does not
      exist" and is not an error; any other failed status is reported. */
  function VolumeExists(resp: StatusResponse): (r: Result<bool, Error>)
    ensures r == Success(true) <==> resp.callErr.None? && resp.result.IsPassed()
    ensures r == Success(false) <==>
              resp.callErr.None? && !resp.result.IsPassed() && IsNotFoundCode(resp.result.code)
    ensures r.Failure? && resp.callErr.None? ==> r.error == ZapiFailure(resp.result)
    ensures resp.callErr.Some? ==> r == Failure(resp.callErr.value)
  {
    if resp.callErr.Some? then Failure(resp.callErr.value)
    else if !resp.result.IsPassed() then
      if IsNotFoundCode(resp.result.code) then Success(false) else Failure(ZapiFailure(resp.result))
    else Success(true)
  }

  /** A `lun-resize` response: the actual size, when the controller sent one. */
  datatype LunResizeResponse = LunResizeResponse(callErr: Option<Error>, result: ZapiError, actualSize: Option<int>)

  const InvalidSizeText := "lun resize operation return an invalid size"
  const ParseSizeText := "error parsing result size"

  /** `LunResize`: the reported size is returned only when the call passed and
      the size is present and not negative. */
  function LunResize(resp: LunResizeResponse): (r: Result<nat, Error>)
    ensures r.Success? <==>
              resp.callErr.None? && resp.result.IsPassed() && resp.actualSize.Some? && resp.actualSize.value >= 0
    ensures r.Success? ==> r.value == resp.actualSize.value
    ensures resp.callErr.Some? ==> r == Failure(resp.callErr.value)
    ensures resp.callErr.None? && !resp.result.IsPassed() ==> r == Failure(ZapiFailure(resp.result))
    ensures resp.callErr.None? && resp.result.IsPassed() && resp.actualSize.None? ==>
              r == Failure(Message(ParseSizeText))
    ensures resp.callErr.None? && resp.result.IsPassed() && resp.actualSize.Some? && resp.actualSize.value < 0 ==>
              r == Failure(Message(InvalidSizeText))
  {
    if resp.callErr.Some? then Failure(resp.callErr.value)
    else if !resp.result.IsPassed() then Failure(ZapiFailure(resp.result))
    else if resp.actualSize.None? then Failure(Message(ParseSizeText))
    else if resp.actualSize.value < 0 then Failure(Message(InvalidSizeText))
    else Success(resp.actualSize.value)
  }

  // ---------------------------------------------------------------------
  // SVM-DR scans

  /** One snapmirror relationship of relationship-group-type "vserver". */
  datatype SnapmirrorEntry = SnapmirrorEntry(destinationVserver: string, destinationLocation: string)

  /** A relationship whose destination location is the bare "vserver:" names
      a whole SVM, i.e. SVM-DR. */
  predicate IsSVMDREntry(e: SnapmirrorEntry)
  {
    e.destinationVserver + ":" == e.destinationLocation
  }

  /** The flag loop of IsVserverDRDestination and IsVserverDRSource: it visits
      every entry and raises the flag at each SVM-DR one. */
  method AnySVMDREntry(entries: seq<SnapmirrorEntry>) returns (found: bool)
    ensures found <==> exists i :: 0 <= i < |entries| && IsSVMDREntry(entries[i])
  {
    found := false;
    var i := 0;
    while i < |entries|
      invariant 0 <= i <= |entries|
      invariant found <==> exists k :: 0 <= k < i && IsSVMDREntry(entries[k])
    {
      if IsSVMDREntry(entries[i]) {
        found := true;
      }
      i := i + 1;
    }
  }

  /** The shared shape of the two SVM-DR queries: a transport error comes back
      as is, a failed status is wrapped with the query's own prefix. */
  method ScanSVMDR(resp: IterResponse<SnapmirrorEntry>, failurePrefix: string) returns (isSVMDR: bool, err: Option<Error>)
    ensures err.Some? ==> !isSVMDR
    ensures resp.callErr.Some? ==> err == resp.callErr
    ensures resp.callErr.None? && !resp.result.IsPassed() ==>
              err == Some(Message(failurePrefix + ErrorText(ZapiFailure(resp.result))))
    ensures err.None? <==> resp.callErr.None? && resp.result.IsPassed()
    ensures err.None? ==> (isSVMDR <==> exists i :: 0 <= i < |Entries(resp)| && IsSVMDREntry(Entries(resp)[i]))
  {
    if resp.callErr.Some? {
      return false, resp.callErr;
    }
    var gerr := CallError(resp);
    if gerr.Some? {
      return false, Some(Message(failurePrefix + ErrorText(gerr.value)));
    }
    isSVMDR := AnySVMDREntry(Entries(resp));
    err := None;
  }

  /** `IsVserverDRDestination`, over the answer of snapmirror-get-iter. */
  method IsVserverDRDestination(resp: IterResponse<SnapmirrorEntry>) returns (isDestination: bool, err: Option<Error>)
    ensures err.Some? ==> !isDestination
    ensures err.None? <==> resp.callErr.None? && resp.result.IsPassed()
    ensures resp.callErr.None? && !resp.result.IsPassed() ==>
              err == Some(Message("error getting snapmirror info: " + ErrorText(ZapiFailure(resp.result))))
    ensures err.None? ==> (isDestination <==> exists i :: 0 <= i < |Entries(resp)| && IsSVMDREntry(Entries(resp)[i]))
  {
    isDestination, err := ScanSVMDR(resp, "error getting snapmirror info: ");
  }

  /** `IsVserverDRSource`, over the answer of snapmirror-get-destination-iter. */
  method IsVserverDRSource(resp: IterResponse<SnapmirrorEntry>) returns (isSource: bool, err: Option<Error>)
    ensures err.Some? ==> !isSource
    ensures err.None? <==> resp.callErr.None? && resp.result.IsPassed()
    ensures resp.callErr.None? && !resp.result.IsPassed() ==>
              err == Some(Message("error getting snapmirror destination info: " + ErrorText(ZapiFailure(resp.result))))
    ensures err.None? ==> (isSource <==> exists i :: 0 <= i < |Entries(resp)| && IsSVMDREntry(Entries(resp)[i]))
  {
    isSource, err := ScanSVMDR(resp, "error getting snapmirror destination info: ");
  }

  /** `isVserverInSVMDR`: errors are discarded; either role counts. */
  method IsVserverInSVMDR(sourceResp: IterResponse<SnapmirrorEntry>, destinationResp: IterResponse<SnapmirrorEntry>)
    returns (inSVMDR: bool)
    ensures inSVMDR <==>
              (CallError(sourceResp).None? && exists i :: 0 <= i < |Entries(sourceResp)| && IsSVMDREntry(Entries(sourceResp)[i]))
              || (CallError(destinationResp).None? &&
                  exists i :: 0 <= i < |Entries(destinationResp)| && IsSVMDREntry(Entries(destinationResp)[i]))
  {
    var isSource, _ := IsVserverDRSource(sourceResp);
    var isDestination, _ := IsVserverDRDestination(destinationResp);
    inSVMDR := isSource || isDestination;
  }

  // ---------------------------------------------------------------------
  // Data LIFs

  /** One operational network interface: its address and data protocols. */
  datatype NetInterface = NetInterface(address: string, dataProtocols: seq<string>)

  /** The address once for every time `protocol` is listed among `protocols`,
      as the inner loop of NetInterfaceGetDataLIFs appends it. */
  function AddressPerMatch(address: string, protocols: seq<string>, protocol: string): seq<string>
  {
    if protocols == [] then []
    else AddressPerMatch(address, protocols[..|protocols| - 1], protocol)
         + (if protocols[|protocols| - 1] == protocol then [address] else [])
  }

  /** All data LIF addresses serving `protocol`, interface by interface. */
  function DataLIFs(lifs: seq<NetInterface>, protocol: string): seq<string>
  {
    if lifs == [] then []
    else DataLIFs(lifs[..|lifs| - 1], protocol)
         + AddressPerMatch(lifs[|lifs| - 1].address, lifs[|lifs| - 1].dataProtocols, protocol)
  }

  lemma {:induction false} AddressPerMatchMembers(address: string, protocols: seq<string>, protocol: string, x: string)
    ensures x in AddressPerMatch(address, protocols, protocol) <==> x == address && protocol in protocols
    decreases |protocols|
  {
    if protocols != [] {
      var init := protocols[..|protocols| - 1];
      AddressPerMatchMembers(address, init, protocol, x);
      assert protocols == init + [protocols[|protocols| - 1]];
    }
  }

  /** An address is reported exactly when some interface with that address
      lists the protocol. */
  lemma {:induction false} DataLIFsMembers(lifs: seq<NetInterface>, protocol: string, x: string)
    ensures x in DataLIFs(lifs, protocol) <==>
              exists i :: 0 <= i < |lifs| && lifs[i].address == x && protocol in lifs[i].dataProtocols
    decreases |lifs|
  {
    if lifs != [] {
      var init, last := lifs[..|lifs| - 1], lifs[|lifs| - 1];
      DataLIFsMembers(init, protocol, x);
      AddressPerMatchMembers(last.address, last.dataProtocols, protocol, x);
      if x in DataLIFs(lifs, protocol) {
        if x in DataLIFs(init, protocol) {
          var i :| 0 <= i < |init| && init[i].address == x && protocol in init[i].dataProtocols;
          assert lifs[i] == init[i];
        } else {
          assert lifs[|lifs| - 1] == last;
        }
      } else {
        forall i | 0 <= i < |lifs| && lifs[i].address == x
          ensures protocol !in lifs[i].dataProtocols
        {
          if i < |init| {
            assert lifs[i] == init[i];
          }
        }
      }
    }
  }

  /** `NetInterfaceGetDataLIFs`: the data LIF addresses for a protocol, or an
      error when the query failed or no interface serves the protocol. */
  method NetInterfaceGetDataLIFs(resp: IterResponse<NetInterface>, protocol: string) returns (r: Result<seq<string>, Error>)
    ensures CallError(resp).Some? ==>
              r == Failure(Message("error checking network interfaces: " + ErrorText(CallError(resp).value)))
    ensures CallError(resp).None? && DataLIFs(Entries(resp), protocol) == [] ==>
              r == Failure(Message("no data LIFs meet the provided criteria (protocol: " + protocol + ")"))
    ensures r.Success? <==> CallError(resp).None? && DataLIFs(Entries(resp), protocol) != []
    ensures r.Success? ==> r.value == DataLIFs(Entries(resp), protocol)
  {
    var gerr := CallError(resp);
    if gerr.Some? {
      return Failure(Message("error checking network interfaces: " + ErrorText(gerr.value)));
    }
    var lifs := Entries(resp);
    var dataLIFs: seq<string> := [];
    var i := 0;
    while i < |lifs|
      invariant 0 <= i <= |lifs|
      invariant dataLIFs == DataLIFs(lifs[..i], protocol)
    {
      var protocols := lifs[i].dataProtocols;
      var j := 0;
      while j < |protocols|
        invariant 0 <= j <= |protocols|
        invariant dataLIFs == DataLIFs(lifs[..i], protocol) + AddressPerMatch(lifs[i].address, protocols[..j], protocol)
      {
        assert protocols[..j + 1][..j] == protocols[..j];
        if protocols[j] == protocol {
          dataLIFs := dataLIFs + [lifs[i].address];
        }
        j := j + 1;
      }
      assert protocols[..j] == protocols;
      assert lifs[..i + 1][..i] == lifs[..i];
      i := i + 1;
    }
    assert lifs[..i] == lifs;
    if |dataLIFs| < 1 {
      return Failure(Message("no data LIFs meet the provided criteria (protocol: " + protocol + ")"));
    }
    r := Success(dataLIFs);
  }

  // ---------------------------------------------------------------------
  // Node serial numbers

  /** The serial numbers that are set, in node order. */
  function SetSerialNumbers(serials: seq<string>): (r: seq<string>)
  {
    if serials == [] then []
    else SetSerialNumbers(serials[..|serials| - 1])
         + (if serials[|serials| - 1] != "" then [serials[|serials| - 1]] else [])
  }

  /** The kept serial numbers are exactly the non-empty ones. */
  lemma {:induction false} SetSerialNumbersMembers(serials: seq<string>, x: string)
    ensures x in SetSerialNumbers(serials) <==> x in serials && x != ""
    decreases |serials|
  {
    if serials != [] {
      var init := serials[..|serials| - 1];
      SetSerialNumbersMembers(init, x);
      assert serials == init + [serials[|serials| - 1]];
    }
  }

  const NoNodeInfoText := "could not get node info"
  const NoSerialNumbersText := "could not get node serial numbers"

  /** `NodeListSerialNumbers`, over the nodes' serial-number attributes. */
  method NodeListSerialNumbers(resp: IterResponse<string>) returns (r: Result<seq<string>, Error>)
    ensures CallError(resp).Some? ==> r == Failure(CallError(resp).value)
    ensures CallError(resp).None? && resp.numRecords == 0 ==> r == Failure(Message(NoNodeInfoText))
    ensures CallError(resp).None? && resp.numRecords != 0 && SetSerialNumbers(Entries(resp)) == [] ==>
              r == Failure(Message(NoSerialNumbersText))
    ensures r.Success? <==>
              CallError(resp).None? && resp.numRecords != 0 && SetSerialNumbers(Entries(resp)) != []
    ensures r.Success? ==> r.value == SetSerialNumbers(Entries(resp))
  {
    var gerr := CallError(resp);
    if gerr.Some? {
      return Failure(gerr.value);
    }
    if resp.numRecords == 0 {
      return Failure(Message(NoNodeInfoText));
    }
    var nodes := Entries(resp);
    var serialNumbers: seq<string> := [];
    var i := 0;
    while i < |nodes|
      invariant 0 <= i <= |nodes|
      invariant serialNumbers == SetSerialNumbers(nodes[..i])
    {
      assert nodes[..i + 1][..i] == nodes[..i];
      if nodes[i] != "" {
        serialNumbers := serialNumbers + [nodes[i]];
      }
      i := i + 1;
    }
    assert nodes[..i] == nodes;
    if |serialNumbers| == 0 {
      return Failure(Message(NoSerialNumbersText));
    }
    r := Success(serialNumbers);
  }

  // ---------------------------------------------------------------------
  // Aggregates of the SVM

  /** One vserver record: its aggregate list (None where the source's
      `VserverAggrInfoListPtr` is nil). */
  datatype VserverInfo = VserverInfo(aggrNames: Option<seq<string>>)

  /** The aggregate names of all records, record by record. */
  function AggregateNames(vservers: seq<VserverInfo>): seq<string>
  {
    if vservers == [] then []
    else AggregateNames(vservers[..|vservers| - 1])
         + (var last := vservers[|vservers| - 1]; if last.aggrNames.Some? then last.aggrNames.value else [])
  }

  /** A name is reported exactly when some record's aggregate list holds it. */
  lemma {:induction false} AggregateNamesMembers(vservers: seq<VserverInfo>, x: string)
    ensures x in AggregateNames(vservers) <==>
              exists i :: 0 <= i < |vservers| && vservers[i].aggrNames.Some? && x in vservers[i].aggrNames.value
  {
    if vservers != [] {
      var init := vservers[..|vservers| - 1];
      AggregateNamesMembers(init, x);
      if exists i :: 0 <= i < |vservers| && vservers[i].aggrNames.Some? && x in vservers[i].aggrNames.value {
        var i :| 0 <= i < |vservers| && vservers[i].aggrNames.Some? && x in vservers[i].aggrNames.value;
        if i < |init| {
          assert init[i] == vservers[i];
        }
      }
      if exists i :: 0 <= i < |init| && init[i].aggrNames.Some? && x in init[i].aggrNames.value {
        var i :| 0 <= i < |init| && init[i].aggrNames.Some? && x in init[i].aggrNames.value;
        assert vservers[i] == init[i];
      }
    }
  }

  /** `VserverGetAggregateNames`: the SVM must be found exactly once (only the
      transport error and the record count are checked). */
  method VserverGetAggregateNames(svm: string, resp: IterResponse<VserverInfo>) returns (r: Result<seq<string>, Error>)
    ensures resp.callErr.Some? ==> r == Failure(resp.callErr.value)
    ensures resp.callErr.None? && resp.numRecords != 1 ==> r == Failure(Message("could not find SVM " + svm))
    ensures r.Success? <==> resp.callErr.None? && resp.numRecords == 1
    ensures r.Success? ==> r.value == AggregateNames(Entries(resp))
  {
    if resp.callErr.Some? {
      return Failure(resp.callErr.value);
    }
    if resp.numRecords != 1 {
      return Failure(Message("could not find SVM " + svm));
    }
    var vservers := Entries(resp);
    var aggrNames: seq<string> := [];
    var i := 0;
    while i < |vservers|
      invariant 0 <= i <= |vservers|
      invariant aggrNames == AggregateNames(vservers[..i])
    {
      assert vservers[..i + 1][..i] == vservers[..i];
      if vservers[i].aggrNames.Some? {
        var names := vservers[i].aggrNames.value;
        var j := 0;
        while j < |names|
          invariant 0 <= j <= |names|
          invariant aggrNames == AggregateNames(vservers[..i]) + names[..j]
        {
          aggrNames := aggrNames + [names[j]];
          assert names[..j + 1] == names[..j] + [names[j]];
          j := j + 1;
        }
        assert names[..j] == names;
      }
      i := i + 1;
    }
    assert vservers[..i] == vservers;
    r := Success(aggrNames);
  }
}
