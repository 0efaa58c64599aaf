/** Mapping a LUN into an initiator group only when it is not mapped yet.
    The client lists the igroups the LUN is mapped to, unmaps it from every
    foreign igroup it meets before the first acceptable one, and either reuses
    the LUN id of that igroup's mapping or asks ONTAP to map the LUN with an
    automatically assigned id.

    The array's mapping table is a mutable set of (igroup, path, id) triples;
    the answers of the list, unmap and map calls are inputs. An unmap or map
    changes the table exactly when its answer carries no transport error and
    a passed status. */
module LunMapping {
  import opened Wrappers
  import opened Strs
  import opened ZapiErrors

  /** One igroup a LUN is mapped to, as lun-map-list-info reports it. */
  datatype IgroupEntry = IgroupEntry(name: string, lunId: int)

  datatype MapListResponse = MapListResponse(callErr: Option<Error>, result: ZapiError, igroups: Option<seq<IgroupEntry>>)

  datatype UnmapResponse = UnmapResponse(callErr: Option<Error>, result: ZapiError)

  datatype MapResponse = MapResponse(callErr: Option<Error>, result: ZapiError, lunIdAssigned: int)

  /** One row of the array's LUN mapping table. */
  datatype LunMap = LunMap(igroup: string, lunPath: string, lunId: int)

  /** The table without the mappings of `lunPath` into any igroup of `igroups`. */
  function WithoutMaps(maps: set<LunMap>, igroups: set<string>, lunPath: string): (r: set<LunMap>)
    ensures r <= maps
    ensures forall m :: m in maps ==> (m in r <==> !(m.lunPath == lunPath && m.igroup in igroups))
  {
    set m | m in maps && !(m.lunPath == lunPath && m.igroup in igroups)
  }

  class LunMapTable {
    var maps: set<LunMap>

    constructor(initial: set<LunMap>)
      ensures maps == initial
    {
      maps := initial;
    }

    /** lun-unmap of `lunPath` from `igroup`, as far as the array is concerned. */
    method Unmap(igroup: string, lunPath: string, answer: UnmapResponse)
      modifies this
      ensures answer.callErr.None? && answer.result.IsPassed() ==> maps == WithoutMaps(old(maps), {igroup}, lunPath)
      ensures !(answer.callErr.None? && answer.result.IsPassed()) ==> maps == old(maps)
    {
      if answer.callErr.None? && answer.result.IsPassed() {
        maps := WithoutMaps(maps, {igroup}, lunPath);
      }
    }

    /** lun-map without an id: the array assigns the id it reports. */
    method MapAutoID(igroup: string, lunPath: string, answer: MapResponse)
      modifies this
      ensures answer.callErr.None? && answer.result.IsPassed() ==>
                maps == old(maps) + {LunMap(igroup, lunPath, answer.lunIdAssigned)}
      ensures !(answer.callErr.None? && answer.result.IsPassed()) ==> maps == old(maps)
    {
      if answer.callErr.None? && answer.result.IsPassed() {
        maps := maps + {LunMap(igroup, lunPath, answer.lunIdAssigned)};
      }
    }
  }

  /** An entry ends the scan when it is the requested igroup, or at once when
      unmanaged imports keep whatever mapping exists. */
  predicate Matches(e: IgroupEntry, igroupName: string, importNotManaged: bool)
  {
    e.name == igroupName || importNotManaged
  }

  /** What the scan of the igroup list found: the id of the first acceptable
      mapping, or the status of the unmap that failed, and the igroups whose
      mapping the array dropped on the way. */
  datatype Scan = Scan(matched: Option<int>, failed: Option<ZapiError>, removed: set<string>)

  /** The loop over the igroups from position i: each foreign igroup is
      unmapped (answer i), a transport error aborts, the first acceptable
      entry stops the scan. */
  function ScanFrom(entries: seq<IgroupEntry>, answers: seq<UnmapResponse>, igroupName: string,
                    importNotManaged: bool, i: nat): (r: Scan)
    requires |answers| == |entries| && i <= |entries|
    ensures r.matched.None? || r.failed.None?
    ensures forall g :: g in r.removed ==> g != igroupName && !importNotManaged
    ensures r.matched.Some? ==>
              exists j :: i <= j < |entries| && Matches(entries[j], igroupName, importNotManaged)
                          && r.matched.value == entries[j].lunId
    decreases |entries| - i
  {
    if i == |entries| then Scan(None, None, {})
    else if !Matches(entries[i], igroupName, importNotManaged) then
      if answers[i].callErr.Some? then Scan(None, Some(answers[i].result), {})
      else
        var rest := ScanFrom(entries, answers, igroupName, importNotManaged, i + 1);
        var dropped: set<string> := if answers[i].result.IsPassed() then {entries[i].name} else {};
        Scan(rest.matched, rest.failed, rest.removed + dropped)
    else Scan(Some(entries[i].lunId), None, {})
  }

  function ReadFailureText(lunPath: string, detail: string): string
  {
    "problem reading maps for LUN " + lunPath + ": " + detail
  }

  function DeleteFailureText(lunPath: string, detail: string): string
  {
    "problem deleting map for LUN " + lunPath + ": " + detail
  }

  function MapFailureText(lunPath: string, detail: string): string
  {
    "problem mapping LUN " + lunPath + ": " + detail
  }

  /** The result of `LunMapIfNotMapped` and its effect on the array: the
      igroups whose mapping was dropped, and the id of the new mapping when
      the map call took effect. */
  datatype MapOutcome = MapOutcome(lunId: int, err: Option<Error>, removed: set<string>, added: Option<int>)

  predicate AnswersAligned(listResp: MapListResponse, unmapAnswers: seq<UnmapResponse>)
  {
    listResp.igroups.Some? ==> |unmapAnswers| == |listResp.igroups.value|
  }

  /** Reference definition of `LunMapIfNotMapped`. */
  function MapIfNotMapped(igroupName: string, lunPath: string, importNotManaged: bool, listResp: MapListResponse,
                          unmapAnswers: seq<UnmapResponse>, mapResp: MapResponse): (o: MapOutcome)
    requires AnswersAligned(listResp, unmapAnswers)
    ensures o.err.Some? ==> o.lunId == -1 && o.added.None?
    ensures o.added.Some? ==> o.err.None? && o.lunId == o.added.value
    ensures igroupName !in o.removed
    ensures importNotManaged ==> o.removed == {}
  {
    if listResp.callErr.Some? then
      MapOutcome(-1, Some(Message(ReadFailureText(lunPath, ErrorText(listResp.callErr.value)))), {}, None)
    else if !listResp.result.IsPassed() then
      MapOutcome(-1, Some(Message(ReadFailureText(lunPath, ZapiErrorText(listResp.result)))), {}, None)
    else
      var scan := if listResp.igroups.None? then Scan(None, None, {})
                  else ScanFrom(listResp.igroups.value, unmapAnswers, igroupName, importNotManaged, 0);
      if scan.failed.Some? then
        MapOutcome(-1, Some(Message(DeleteFailureText(lunPath, ZapiErrorText(scan.failed.value)))), scan.removed, None)
      else if scan.matched.Some? then
        MapOutcome(scan.matched.value, None, scan.removed, None)
      else if mapResp.callErr.Some? then
        MapOutcome(-1, Some(Message(MapFailureText(lunPath, ErrorText(mapResp.callErr.value)))), scan.removed, None)
      else if !mapResp.result.IsPassed() then
        MapOutcome(-1, Some(Message(MapFailureText(lunPath, ZapiErrorText(mapResp.result)))), scan.removed, None)
      else
        MapOutcome(mapResp.lunIdAssigned, None, scan.removed, Some(mapResp.lunIdAssigned))
  }

  /** The array's table after the call. */
  function FinalMaps(maps: set<LunMap>, igroupName: string, lunPath: string, o: MapOutcome): set<LunMap>
  {
    WithoutMaps(maps, o.removed, lunPath)
    + (if o.added.Some? then {LunMap(igroupName, lunPath, o.added.value)} else {})
  }

  /** A scan that meets an acceptable entry at position k, with every unmap
      before it free of transport errors, returns that entry's id. */
  lemma {:induction false} ScanStopsAtFirstMatch(entries: seq<IgroupEntry>, answers: seq<UnmapResponse>,
                                                igroupName: string, importNotManaged: bool, i: nat, k: nat)
    requires |answers| == |entries| && i <= k < |entries|
    requires Matches(entries[k], igroupName, importNotManaged)
    requires forall j :: i <= j < k ==> !Matches(entries[j], igroupName, importNotManaged) && answers[j].callErr.None?
    ensures ScanFrom(entries, answers, igroupName, importNotManaged, i).matched == Some(entries[k].lunId)
    ensures ScanFrom(entries, answers, igroupName, importNotManaged, i).failed.None?
    decreases k - i
  {
    if i < k {
      ScanStopsAtFirstMatch(entries, answers, igroupName, importNotManaged, i + 1, k);
    }
  }

  /** A scan over foreign igroups only, none of whose unmaps fails in
      transport, matches nothing and fails nothing. */
  lemma {:induction false} ScanWithoutMatch(entries: seq<IgroupEntry>, answers: seq<UnmapResponse>,
                                           igroupName: string, importNotManaged: bool, i: nat)
    requires |answers| == |entries| && i <= |entries|
    requires forall j :: i <= j < |entries| ==> !Matches(entries[j], igroupName, importNotManaged) && answers[j].callErr.None?
    ensures ScanFrom(entries, answers, igroupName, importNotManaged, i).matched.None?
    ensures ScanFrom(entries, answers, igroupName, importNotManaged, i).failed.None?
    decreases |entries| - i
  {
    if i < |entries| {
      ScanWithoutMatch(entries, answers, igroupName, importNotManaged, i + 1);
    }
  }

  /** The igroups among positions i..k-1 whose unmap the array accepted. */
  function PassedUnmaps(entries: seq<IgroupEntry>, answers: seq<UnmapResponse>, i: nat, k: nat): set<string>
    requires |answers| == |entries| && i <= k <= |entries|
  {
    set j | i <= j < k && answers[j].result.IsPassed() :: entries[j].name
  }

  /** Where the scan from i ends, at position k: every entry before k is a
      foreign igroup whose unmap went through, and k is the end of the list,
      the first acceptable entry, or an unmap that failed in transport. */
  predicate EndsAt(entries: seq<IgroupEntry>, answers: seq<UnmapResponse>, igroupName: string,
                   importNotManaged: bool, i: nat, k: nat)
    requires |answers| == |entries| && i <= k <= |entries|
  {
    (forall j :: i <= j < k ==> !Matches(entries[j], igroupName, importNotManaged) && answers[j].callErr.None?)
    && (k < |entries| ==> Matches(entries[k], igroupName, importNotManaged) || answers[k].callErr.Some?)
  }

  /** The scan drops exactly the mappings into the foreign igroups it meets
      before it ends whose unmap the array accepted. */
  lemma {:induction false} ScanRemovesPassedUnmaps(entries: seq<IgroupEntry>, answers: seq<UnmapResponse>,
                                                  igroupName: string, importNotManaged: bool, i: nat, k: nat)
    requires |answers| == |entries| && i <= k <= |entries|
    requires EndsAt(entries, answers, igroupName, importNotManaged, i, k)
    ensures ScanFrom(entries, answers, igroupName, importNotManaged, i).removed == PassedUnmaps(entries, answers, i, k)
    decreases k - i
  {
    if i == k {
      assert PassedUnmaps(entries, answers, i, k) == {};
    } else {
      ScanRemovesPassedUnmaps(entries, answers, igroupName, importNotManaged, i + 1, k);
      var dropped: set<string> := if answers[i].result.IsPassed() then {entries[i].name} else {};
      assert PassedUnmaps(entries, answers, i, k) == PassedUnmaps(entries, answers, i + 1, k) + dropped;
    }
  }

  /** An unmap that fails in transport at position k, before any acceptable
      entry, aborts the scan with that answer's status, after the unmaps the
      array accepted before it. */
  lemma {:induction false} ScanFailsOnUnmapTransportError(entries: seq<IgroupEntry>, answers: seq<UnmapResponse>,
                                                         igroupName: string, importNotManaged: bool, i: nat, k: nat)
    requires |answers| == |entries| && i <= k < |entries|
    requires forall j :: i <= j < k ==> !Matches(entries[j], igroupName, importNotManaged) && answers[j].callErr.None?
    requires !Matches(entries[k], igroupName, importNotManaged) && answers[k].callErr.Some?
    ensures ScanFrom(entries, answers, igroupName, importNotManaged, i)
            == Scan(None, Some(answers[k].result), PassedUnmaps(entries, answers, i, k))
    decreases k - i
  {
    ScanRemovesPassedUnmaps(entries, answers, igroupName, importNotManaged, i, k);
    if i < k {
      ScanFailsOnUnmapTransportError(entries, answers, igroupName, importNotManaged, i + 1, k);
    }
  }

  predicate ListPassed(listResp: MapListResponse)
  {
    listResp.callErr.None? && listResp.result.IsPassed()
  }

  /** An existing acceptable mapping is reused: its id is returned and no map
      call takes effect. */
  lemma ReusesFirstMatch(igroupName: string, lunPath: string, importNotManaged: bool, listResp: MapListResponse,
                         unmapAnswers: seq<UnmapResponse>, mapResp: MapResponse, k: nat)
    requires AnswersAligned(listResp, unmapAnswers) && ListPassed(listResp) && listResp.igroups.Some?
    requires k < |listResp.igroups.value| && Matches(listResp.igroups.value[k], igroupName, importNotManaged)
    requires forall j :: 0 <= j < k ==>
               !Matches(listResp.igroups.value[j], igroupName, importNotManaged) && unmapAnswers[j].callErr.None?
    ensures var o := MapIfNotMapped(igroupName, lunPath, importNotManaged, listResp, unmapAnswers, mapResp);
            o.err.None? && o.lunId == listResp.igroups.value[k].lunId && o.added.None?
  {
    ScanStopsAtFirstMatch(listResp.igroups.value, unmapAnswers, igroupName, importNotManaged, 0, k);
  }

  /** Unmanaged imports keep the first mapping listed, whatever igroup it is in,
      and unmap nothing. */
  lemma ImportKeepsFirstMapping(igroupName: string, lunPath: string, listResp: MapListResponse,
                                unmapAnswers: seq<UnmapResponse>, mapResp: MapResponse)
    requires AnswersAligned(listResp, unmapAnswers) && ListPassed(listResp)
    requires listResp.igroups.Some? && |listResp.igroups.value| > 0
    ensures MapIfNotMapped(igroupName, lunPath, true, listResp, unmapAnswers, mapResp)
            == MapOutcome(listResp.igroups.value[0].lunId, None, {}, None)
  {
    ScanStopsAtFirstMatch(listResp.igroups.value, unmapAnswers, igroupName, true, 0, 0);
  }

  /** With no acceptable mapping and no failed unmap, the LUN is mapped afresh
      with the id ONTAP assigns, or the map failure is reported. */
  lemma MapsWhenNothingMatches(igroupName: string, lunPath: string, importNotManaged: bool, listResp: MapListResponse,
                               unmapAnswers: seq<UnmapResponse>, mapResp: MapResponse)
    requires AnswersAligned(listResp, unmapAnswers) && ListPassed(listResp)
    requires listResp.igroups.Some? ==>
               forall j :: 0 <= j < |listResp.igroups.value| ==>
                 !Matches(listResp.igroups.value[j], igroupName, importNotManaged) && unmapAnswers[j].callErr.None?
    ensures var o := MapIfNotMapped(igroupName, lunPath, importNotManaged, listResp, unmapAnswers, mapResp);
            (o.err.None? <==> mapResp.callErr.None? && mapResp.result.IsPassed())
            && (o.err.None? ==> o.added == Some(mapResp.lunIdAssigned) && o.lunId == mapResp.lunIdAssigned)
  {
    if listResp.igroups.Some? {
      ScanWithoutMatch(listResp.igroups.value, unmapAnswers, igroupName, importNotManaged, 0);
    }
  }

  /** A failed read of the mappings, in transport or in status, gives -1 and
      the read error, and touches nothing. */
  lemma ReadFailureAborts(igroupName: string, lunPath: string, importNotManaged: bool, listResp: MapListResponse,
                          unmapAnswers: seq<UnmapResponse>, mapResp: MapResponse)
    requires AnswersAligned(listResp, unmapAnswers) && !ListPassed(listResp)
    ensures var o := MapIfNotMapped(igroupName, lunPath, importNotManaged, listResp, unmapAnswers, mapResp);
            o.lunId == -1 && o.removed == {} && o.added.None?
            && o.err == Some(Message(ReadFailureText(lunPath,
                                       if listResp.callErr.Some? then ErrorText(listResp.callErr.value)
                                       else ZapiErrorText(listResp.result))))
  {
  }

  /** An unmap that fails in transport at position k, before any acceptable
      mapping, gives -1 and the delete error for that answer; the unmaps the
      array accepted before it stay done, and nothing is mapped. */
  lemma UnmapTransportFailureAborts(igroupName: string, lunPath: string, importNotManaged: bool,
                                    listResp: MapListResponse, unmapAnswers: seq<UnmapResponse>,
                                    mapResp: MapResponse, k: nat)
    requires AnswersAligned(listResp, unmapAnswers) && ListPassed(listResp) && listResp.igroups.Some?
    requires k < |listResp.igroups.value|
    requires forall j :: 0 <= j < k ==>
               !Matches(listResp.igroups.value[j], igroupName, importNotManaged) && unmapAnswers[j].callErr.None?
    requires !Matches(listResp.igroups.value[k], igroupName, importNotManaged) && unmapAnswers[k].callErr.Some?
    ensures MapIfNotMapped(igroupName, lunPath, importNotManaged, listResp, unmapAnswers, mapResp)
            == MapOutcome(-1, Some(Message(DeleteFailureText(lunPath, ZapiErrorText(unmapAnswers[k].result)))),
                          PassedUnmaps(listResp.igroups.value, unmapAnswers, 0, k), None)
  {
    ScanFailsOnUnmapTransportError(listResp.igroups.value, unmapAnswers, igroupName, importNotManaged, 0, k);
  }

  /** Whatever the outcome after a successful read, the table loses exactly the
      LUN's mappings into the foreign igroups met before the scan ended whose
      unmap the array accepted, and gains at most the requested mapping. */
  lemma UnmapsForeignIgroupsBeforeStop(maps: set<LunMap>, igroupName: string, lunPath: string,
                                       importNotManaged: bool, listResp: MapListResponse,
                                       unmapAnswers: seq<UnmapResponse>, mapResp: MapResponse, k: nat)
    requires AnswersAligned(listResp, unmapAnswers) && ListPassed(listResp) && listResp.igroups.Some?
    requires k <= |listResp.igroups.value|
    requires EndsAt(listResp.igroups.value, unmapAnswers, igroupName, importNotManaged, 0, k)
    ensures var o := MapIfNotMapped(igroupName, lunPath, importNotManaged, listResp, unmapAnswers, mapResp);
            var gone := PassedUnmaps(listResp.igroups.value, unmapAnswers, 0, k);
            o.removed == gone
            && (forall m :: m in maps ==>
                  (m in FinalMaps(maps, igroupName, lunPath, o) <==> !(m.lunPath == lunPath && m.igroup in gone)))
            && (forall m :: m in FinalMaps(maps, igroupName, lunPath, o) && m !in maps ==>
                  o.added.Some? && m == LunMap(igroupName, lunPath, o.added.value))
  {
    ScanRemovesPassedUnmaps(listResp.igroups.value, unmapAnswers, igroupName, importNotManaged, 0, k);
  }

  /** A successful call leaves the requested igroup's mapping of the LUN in
      place: either the array already had it and nothing touched it, or the
      map call added it. */
  lemma RequestedMappingSurvives(maps: set<LunMap>, igroupName: string, lunPath: string, importNotManaged: bool,
                                 listResp: MapListResponse, unmapAnswers: seq<UnmapResponse>, mapResp: MapResponse,
                                 m: LunMap)
    requires AnswersAligned(listResp, unmapAnswers)
    requires m in maps && m.igroup == igroupName
    ensures var o := MapIfNotMapped(igroupName, lunPath, importNotManaged, listResp, unmapAnswers, mapResp);
            m in FinalMaps(maps, igroupName, lunPath, o)
  {
  }

  /** `LunMapIfNotMapped`. */
  method LunMapIfNotMapped(table: LunMapTable, igroupName: string, lunPath: string, importNotManaged: bool,
                           listResp: MapListResponse, unmapAnswers: seq<UnmapResponse>, mapResp: MapResponse)
    returns (lunId: int, err: Option<Error>)
    requires AnswersAligned(listResp, unmapAnswers)
    modifies table
    ensures var o := MapIfNotMapped(igroupName, lunPath, importNotManaged, listResp, unmapAnswers, mapResp);
            lunId == o.lunId && err == o.err && table.maps == FinalMaps(old(table.maps), igroupName, lunPath, o)
  {
    if listResp.callErr.Some? {
      return -1, Some(Message(ReadFailureText(lunPath, ErrorText(listResp.callErr.value))));
    } else if !listResp.result.IsPassed() {
      return -1, Some(Message(ReadFailureText(lunPath, ZapiErrorText(listResp.result))));
    }

    lunId := 0;
    var alreadyMapped := false;
    ghost var removed: set<string> := {};
    if listResp.igroups.Some? {
      var entries := listResp.igroups.value;
      ghost var whole := ScanFrom(entries, unmapAnswers, igroupName, importNotManaged, 0);
      var i := 0;
      while i < |entries|
        invariant 0 <= i <= |entries|
        invariant !alreadyMapped
        invariant var rest := ScanFrom(entries, unmapAnswers, igroupName, importNotManaged, i);
                  whole == Scan(rest.matched, rest.failed, rest.removed + removed)
        invariant table.maps == WithoutMaps(old(table.maps), removed, lunPath)
      {
        var igroup := entries[i];
        if igroup.name != igroupName && !importNotManaged {
          table.Unmap(igroup.name, lunPath, unmapAnswers[i]);
          if unmapAnswers[i].callErr.Some? {
            return -1, Some(Message(DeleteFailureText(lunPath, ZapiErrorText(unmapAnswers[i].result))));
          }
          if unmapAnswers[i].result.IsPassed() {
            removed := removed + {igroup.name};
          }
        }
        if igroup.name == igroupName || importNotManaged {
          lunId := igroup.lunId;
          alreadyMapped := true;
          break;
        }
        i := i + 1;
      }
    }

    if !alreadyMapped {
      table.MapAutoID(igroupName, lunPath, mapResp);
      if mapResp.callErr.Some? {
        return -1, Some(Message(MapFailureText(lunPath, ErrorText(mapResp.callErr.value))));
      } else if !mapResp.result.IsPassed() {
        return -1, Some(Message(MapFailureText(lunPath, ZapiErrorText(mapResp.result))));
      }
      lunId := mapResp.lunIdAssigned;
    }
    err := None;
  }
}
