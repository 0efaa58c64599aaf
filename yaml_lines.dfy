/** The multi-line YAML fragments the manifest factory splices into its
    templates: labels, owner references, image-pull secrets, service-account
    secrets, and the data sections of a Secret. Each builder appends to a
    string in a loop; each is specified by the list of lines it emits.

    A Go map is modelled as `Option<map>` (None for a nil map) together with
    the order in which `range` happens to visit its keys, which may be any
    enumeration of the keys.

    The indentation `spaces` is spliced into a format string in the source;
    the builders treat it as plain text, which agrees with the source because
    the only indentation the factory passes is `createSpaces` output, and
    blanks hold no formatting verb. */
module ManifestLines {
  import opened Wrappers
  import opened Strs

  /** `createSpaces`: exactly spaceCount spaces. */
  function CreateSpaces(spaceCount: nat): (s: string)
    ensures |s| == spaceCount
    ensures forall i :: 0 <= i < |s| ==> s[i] == ' '
  {
    Repeat(' ', spaceCount)
  }

  /** Lines, each terminated by a newline. */
  function Unlines(lines: seq<string>): string
  {
    if lines == [] then "" else lines[0] + "\n" + Unlines(lines[1..])
  }

  lemma {:induction false} UnlinesSnoc(lines: seq<string>, last: string)
    ensures Unlines(lines + [last]) == Unlines(lines) + last + "\n"
  {
    if lines == [] {
      assert lines + [last] == [last];
      assert Unlines([last]) == last + "\n" + Unlines([]);
    } else {
      assert (lines + [last])[1..] == lines[1..] + [last];
      UnlinesSnoc(lines[1..], last);
    }
  }

  lemma UnlinesSingle(line: string)
    ensures Unlines([line]) == line + "\n"
  {
    assert Unlines([line]) == line + "\n" + Unlines([]);
  }

  lemma {:induction false} UnlinesAppend(a: seq<string>, b: seq<string>)
    ensures Unlines(a + b) == Unlines(a) + Unlines(b)
  {
    if a == [] {
      assert a + b == b;
    } else {
      assert (a + b)[1..] == a[1..] + b;
      UnlinesAppend(a[1..], b);
    }
  }

  predicate NoNewline(s: string)
  {
    forall i :: 0 <= i < |s| ==> s[i] != '\n'
  }

  predicate AllNoNewline(lines: seq<string>)
  {
    forall i :: 0 <= i < |lines| ==> NoNewline(lines[i])
  }

  /** The emitted text splits back into exactly its lines, followed by the
      empty remainder after the final newline. */
  lemma {:induction false} UnlinesSplit(lines: seq<string>)
    requires AllNoNewline(lines)
    ensures SplitOn(Unlines(lines), '\n') == lines + [""]
  {
    if lines != [] {
      assert Unlines(lines) == lines[0] + ['\n'] + Unlines(lines[1..]);
      SplitOnField(lines[0], '\n', Unlines(lines[1..]));
      assert AllNoNewline(lines[1..]) by {
        forall i | 0 <= i < |lines[1..]| ensures NoNewline(lines[1..][i]) {
          assert lines[1..][i] == lines[i + 1];
        }
      }
      UnlinesSplit(lines[1..]);
      assert [lines[0]] + (lines[1..] + [""]) == lines + [""];
    }
  }

  /** One newline per line. */
  lemma {:induction false} UnlinesNewlines(lines: seq<string>)
    requires AllNoNewline(lines)
    ensures CountChar(Unlines(lines), '\n') == |lines|
  {
    if lines != [] {
      CountCharAppend(lines[0] + "\n", Unlines(lines[1..]), '\n');
      CountCharAppend(lines[0], "\n", '\n');
      CountCharAbsent(lines[0], '\n');
      assert AllNoNewline(lines[1..]) by {
        forall i | 0 <= i < |lines[1..]| ensures NoNewline(lines[1..][i]) {
          assert lines[1..][i] == lines[i + 1];
        }
      }
      UnlinesNewlines(lines[1..]);
    }
  }

  // ---------------------------------------------------------------------
  // Lists of names

  /** One `prefix + name` line per name, in order. */
  function NameLines(prefix: string, names: seq<string>): (lines: seq<string>)
    ensures |lines| == |names|
  {
    seq(|names|, i requires 0 <= i < |names| => prefix + names[i])
  }

  /** The loop shared by constructImagePullSecrets and
      constructServiceAccountSecrets: one "- name: X" line per entry. */
  method AppendNameLines(text: string, prefix: string, names: seq<string>) returns (out: string)
    ensures out == text + Unlines(NameLines(prefix, names))
  {
    out := text;
    var i := 0;
    while i < |names|
      invariant 0 <= i <= |names|
      invariant out == text + Unlines(NameLines(prefix, names[..i]))
    {
      assert NameLines(prefix, names[..i + 1]) == NameLines(prefix, names[..i]) + [prefix + names[i]];
      UnlinesSnoc(NameLines(prefix, names[..i]), prefix + names[i]);
      out := out + prefix + names[i] + "\n";
      i := i + 1;
    }
    assert names[..i] == names;
  }

  function ImagePullSecretsLines(imagePullSecrets: seq<string>, spaces: string): seq<string>
  {
    if |imagePullSecrets| == 0 then []
    else [spaces + "imagePullSecrets:"] + NameLines(spaces + "- name: ", imagePullSecrets)
  }

  /** `constructImagePullSecrets`: nothing for an empty list, else a header
      and one entry per secret, in input order, all indented by `spaces`. */
  method ConstructImagePullSecrets(imagePullSecrets: seq<string>, spaces: string) returns (data: string)
    ensures data == Unlines(ImagePullSecretsLines(imagePullSecrets, spaces))
  {
    data := "";
    if |imagePullSecrets| > 0 {
      var header := spaces + "imagePullSecrets:";
      data := header + "\n";
      UnlinesSingle(header);
      data := AppendNameLines(data, spaces + "- name: ", imagePullSecrets);
      UnlinesAppend([header], NameLines(spaces + "- name: ", imagePullSecrets));
    }
  }

  function ServiceAccountSecretsLines(serviceAccountSecrets: seq<string>): seq<string>
  {
    if |serviceAccountSecrets| == 0 then []
    else ["secrets:"] + NameLines("- name: ", serviceAccountSecrets)
  }

  /** `constructServiceAccountSecrets`: the same list without indentation,
      under a "secrets:" header. */
  method ConstructServiceAccountSecrets(serviceAccountSecrets: seq<string>) returns (data: string)
    ensures data == Unlines(ServiceAccountSecretsLines(serviceAccountSecrets))
  {
    data := "";
    if |serviceAccountSecrets| > 0 {
      data := data + "secrets:\n";
      UnlinesSingle("secrets:");
      data := AppendNameLines(data, "- name: ", serviceAccountSecrets);
      UnlinesAppend(["secrets:"], NameLines("- name: ", serviceAccountSecrets));
    }
  }

  /** The secret names can be read back from the emitted text: after the
      header, line i + 1 is the indented marker followed by secret i. */
  lemma ImagePullSecretsRecovered(imagePullSecrets: seq<string>, spaces: string)
    requires |imagePullSecrets| > 0 && NoNewline(spaces) && AllNoNewline(imagePullSecrets)
    ensures var parts := SplitOn(Unlines(ImagePullSecretsLines(imagePullSecrets, spaces)), '\n');
            |parts| == |imagePullSecrets| + 2
            && parts[0] == spaces + "imagePullSecrets:"
            && parts[|parts| - 1] == ""
            && forall i :: 0 <= i < |imagePullSecrets| ==>
                 HasPrefix(parts[i + 1], spaces + "- name: ")
                 && parts[i + 1][|spaces + "- name: "|..] == imagePullSecrets[i]
  {
    var lines := ImagePullSecretsLines(imagePullSecrets, spaces);
    forall i | 0 <= i < |lines| ensures NoNewline(lines[i]) {
      if i > 0 {
        assert lines[i] == spaces + "- name: " + imagePullSecrets[i - 1];
      }
    }
    UnlinesSplit(lines);
    var parts := SplitOn(Unlines(lines), '\n');
    forall i | 0 <= i < |imagePullSecrets|
      ensures HasPrefix(parts[i + 1], spaces + "- name: ")
      ensures parts[i + 1][|spaces + "- name: "|..] == imagePullSecrets[i]
    {
      assert parts[i + 1] == (spaces + "- name: ") + imagePullSecrets[i];
    }
  }

  /** The text of an image-pull-secrets block ends every emitted line: one
      newline per secret plus the header, none for an empty list. */
  lemma ImagePullSecretsNewlines(imagePullSecrets: seq<string>, spaces: string)
    requires NoNewline(spaces) && AllNoNewline(imagePullSecrets)
    ensures CountChar(Unlines(ImagePullSecretsLines(imagePullSecrets, spaces)), '\n')
            == if |imagePullSecrets| == 0 then 0 else |imagePullSecrets| + 1
  {
    var lines := ImagePullSecretsLines(imagePullSecrets, spaces);
    forall i | 0 <= i < |lines| ensures NoNewline(lines[i]) {
      if i > 0 {
        assert lines[i] == spaces + "- name: " + imagePullSecrets[i - 1];
      }
    }
    UnlinesNewlines(lines);
  }

  // ---------------------------------------------------------------------
  // Maps

  /** `order` is one way `range` may visit the keys of m: each key once. */
  predicate Enumerates(m: map<string, string>, order: seq<string>)
  {
    && (forall i :: 0 <= i < |order| ==> order[i] in m)
    && (forall i, j :: 0 <= i < j < |order| ==> order[i] != order[j])
    && (forall k :: k in m ==> k in order)
  }

  predicate EnumeratesOpt(m: Option<map<string, string>>, order: seq<string>)
  {
    m.Some? ==> Enumerates(m.value, order)
  }

  /** One `prefix + "key: value"` line per key, in visiting order. */
  function EntryLines(prefix: string, m: map<string, string>, order: seq<string>): (lines: seq<string>)
    requires forall i :: 0 <= i < |order| ==> order[i] in m
    ensures |lines| == |order|
  {
    seq(|order|, i requires 0 <= i < |order| => prefix + order[i] + ": " + m[order[i]])
  }

  /** The lines emitted for a map are one per entry, whatever the visiting
      order: a line is there exactly when it renders some entry. */
  lemma EntryLinesMembers(prefix: string, m: map<string, string>, order: seq<string>, line: string)
    requires Enumerates(m, order)
    ensures line in EntryLines(prefix, m, order) <==> exists k :: k in m && line == prefix + k + ": " + m[k]
  {
    var lines := EntryLines(prefix, m, order);
    if exists k :: k in m && line == prefix + k + ": " + m[k] {
      var k :| k in m && line == prefix + k + ": " + m[k];
      var i :| 0 <= i < |order| && order[i] == k;
      assert lines[i] == line;
    }
  }

  lemma {:induction false} DistinctCardinality(order: seq<string>)
    requires forall i, j :: 0 <= i < j < |order| ==> order[i] != order[j]
    ensures |set i | 0 <= i < |order| :: order[i]| == |order|
  {
    if order != [] {
      var init := order[..|order| - 1];
      DistinctCardinality(init);
      var s := set i | 0 <= i < |init| :: init[i];
      var t := set i | 0 <= i < |order| :: order[i];
      assert t == s + {order[|order| - 1]} by {
        forall x | x in t ensures x in s + {order[|order| - 1]} {
          var i :| 0 <= i < |order| && order[i] == x;
          if i < |init| {
            assert init[i] == x;
          }
        }
      }
      assert order[|order| - 1] !in s;
    }
  }

  /** A visiting order has exactly as many keys as the map. */
  lemma EnumerationLength(m: map<string, string>, order: seq<string>)
    requires Enumerates(m, order)
    ensures |order| == |m|
  {
    DistinctCardinality(order);
    assert (set i | 0 <= i < |order| :: order[i]) == m.Keys;
  }

  /** The key/value loop of contructLabels and GetSecretYAML. */
  method AppendEntryLines(text: string, prefix: string, m: map<string, string>, order: seq<string>)
    returns (out: string)
    requires Enumerates(m, order)
    ensures out == text + Unlines(EntryLines(prefix, m, order))
  {
    out := text;
    var i := 0;
    while i < |order|
      invariant 0 <= i <= |order|
      invariant out == text + Unlines(EntryLines(prefix, m, order[..i]))
    {
      var key := order[i];
      assert EntryLines(prefix, m, order[..i + 1]) == EntryLines(prefix, m, order[..i]) + [prefix + key + ": " + m[key]];
      UnlinesSnoc(EntryLines(prefix, m, order[..i]), prefix + key + ": " + m[key]);
      out := out + prefix + key + ": " + m[key] + "\n";
      i := i + 1;
    }
    assert order[..i] == order;
  }

  /** A header line followed by one `prefix + "key: value"` line per entry;
      nothing at all for a nil map. */
  function Section(header: string, prefix: string, m: Option<map<string, string>>, order: seq<string>): seq<string>
    requires EnumeratesOpt(m, order)
  {
    match m
    case None => []
    case Some(d) => [header] + EntryLines(prefix, d, order)
  }

  /** Appends a `Section`: the shape of contructLabels and of each data
      section of GetSecretYAML. */
  method AppendSection(text: string, header: string, prefix: string, m: Option<map<string, string>>, order: seq<string>)
    returns (out: string)
    requires EnumeratesOpt(m, order)
    ensures out == text + Unlines(Section(header, prefix, m, order))
  {
    out := text;
    if m.Some? {
      out := out + header + "\n";
      UnlinesSingle(header);
      out := AppendEntryLines(out, prefix, m.value, order);
      UnlinesAppend([header], EntryLines(prefix, m.value, order));
    }
  }

  function LabelLines(labels: Option<map<string, string>>, order: seq<string>, spaces: string): seq<string>
    requires EnumeratesOpt(labels, order)
  {
    Section(spaces + "labels:", spaces + "  ", labels, order)
  }

  /** `contructLabels`: nothing for a nil map, else a header and one line per
      label. */
  method ConstructLabels(labels: Option<map<string, string>>, order: seq<string>, spaces: string)
    returns (labelData: string)
    requires EnumeratesOpt(labels, order)
    ensures labelData == Unlines(LabelLines(labels, order, spaces))
  {
    labelData := AppendSection("", spaces + "labels:", spaces + "  ", labels, order);
  }

  /** A labels block is the header plus exactly one line per label, and the
      label lines do not depend on the visiting order. */
  lemma LabelBlockShape(m: map<string, string>, order: seq<string>, spaces: string, line: string)
    requires Enumerates(m, order)
    ensures |LabelLines(Some(m), order, spaces)| == |m| + 1
    ensures LabelLines(Some(m), order, spaces)[0] == spaces + "labels:"
    ensures line in LabelLines(Some(m), order, spaces)[1..] <==>
              exists k :: k in m && line == spaces + "  " + k + ": " + m[k]
  {
    EnumerationLength(m, order);
    EntryLinesMembers(spaces + "  ", m, order, line);
    assert LabelLines(Some(m), order, spaces)[1..] == EntryLines(spaces + "  ", m, order);
  }

  /** How the owner-reference loop renders entry i: the first entry opens the
      list item, the others continue it. */
  function OwnerRefLines(m: map<string, string>, order: seq<string>, spaces: string): (lines: seq<string>)
    requires forall i :: 0 <= i < |order| ==> order[i] in m
    ensures |lines| == |order|
  {
    seq(|order|, i requires 0 <= i < |order| =>
                   spaces + (if i == 0 then "- " else "  ") + order[i] + ": " + m[order[i]])
  }

  lemma OwnerRefLinesSnoc(m: map<string, string>, order: seq<string>, spaces: string, i: nat)
    requires forall i :: 0 <= i < |order| ==> order[i] in m
    requires i < |order|
    ensures [spaces + "ownerReferences:"] + OwnerRefLines(m, order[..i + 1], spaces)
            == [spaces + "ownerReferences:"] + OwnerRefLines(m, order[..i], spaces)
               + [spaces + (if i == 0 then "- " else "  ") + order[i] + ": " + m[order[i]]]
  {
    assert OwnerRefLines(m, order[..i + 1], spaces)
        == OwnerRefLines(m, order[..i], spaces) + [spaces + (if i == 0 then "- " else "  ") + order[i] + ": " + m[order[i]]];
  }

  function OwnerRefBlock(ownerRef: Option<map<string, string>>, order: seq<string>, spaces: string): seq<string>
    requires EnumeratesOpt(ownerRef, order)
  {
    match ownerRef
    case None => []
    case Some(m) => [spaces + "ownerReferences:"] + OwnerRefLines(m, order, spaces)
  }

  /** `constructOwnerRef`: nothing for a nil map; otherwise a header, then the
      entries as one YAML list item, the `isFirst` flag putting "- " before
      the first entry emitted only. */
  method ConstructOwnerRef(ownerRef: Option<map<string, string>>, order: seq<string>, spaces: string)
    returns (ownerRefData: string)
    requires EnumeratesOpt(ownerRef, order)
    ensures ownerRefData == Unlines(OwnerRefBlock(ownerRef, order, spaces))
  {
    ownerRefData := "";
    if ownerRef.Some? {
      var m := ownerRef.value;
      var isFirst := true;
      var header := spaces + "ownerReferences:";
      ownerRefData := header + "\n";
      UnlinesSingle(header);
      assert OwnerRefLines(m, order[..0], spaces) == [];
      var i := 0;
      while i < |order|
        invariant 0 <= i <= |order|
        invariant isFirst <==> i == 0
        invariant ownerRefData == Unlines([header] + OwnerRefLines(m, order[..i], spaces))
      {
        var key := order[i];
        var line;
        if isFirst {
          line := spaces + "- " + key + ": " + m[key];
          isFirst := false;
        } else {
          line := spaces + "  " + key + ": " + m[key];
        }
        OwnerRefLinesSnoc(m, order, spaces, i);
        UnlinesSnoc([header] + OwnerRefLines(m, order[..i], spaces), line);
        ownerRefData := ownerRefData + line + "\n";
        i := i + 1;
      }
      assert order[..i] == order;
    }
  }

  /** Exactly one owner-reference line opens a list item, and it is the first
      entry line. */
  lemma OwnerRefSingleListItem(m: map<string, string>, order: seq<string>, spaces: string)
    requires Enumerates(m, order) && |m| > 0
    ensures var lines := OwnerRefBlock(Some(m), order, spaces);
            |lines| == |m| + 1
            && forall i :: 1 <= i < |lines| ==> (HasPrefix(lines[i], spaces + "- ") <==> i == 1)
  {
    EnumerationLength(m, order);
    var lines := OwnerRefBlock(Some(m), order, spaces);
    forall i | 1 <= i < |lines| ensures HasPrefix(lines[i], spaces + "- ") <==> i == 1 {
      var marker := if i == 1 then "- " else "  ";
      assert lines[i] == spaces + marker + order[i - 1] + ": " + m[order[i - 1]];
      assert lines[i][|spaces|] == marker[0];
      if i == 1 {
        assert lines[i][..|spaces + "- "|] == spaces + "- ";
      } else {
        assert (spaces + "- ")[|spaces|] == '-';
      }
    }
  }

  /** The tail of `GetSecretYAML`: after the substituted template (`secretYAML`),
      a "data:" section when data is non-nil, then a "stringData:" section
      when stringData is non-nil, each holding one indented line per entry. */
  method GetSecretYAML(secretYAML: string, data: Option<map<string, string>>, dataOrder: seq<string>,
                       stringData: Option<map<string, string>>, stringDataOrder: seq<string>)
    returns (yaml: string)
    requires EnumeratesOpt(data, dataOrder) && EnumeratesOpt(stringData, stringDataOrder)
    ensures yaml == secretYAML + Unlines(Section("data:", "  ", data, dataOrder)
                                         + Section("stringData:", "  ", stringData, stringDataOrder))
  {
    yaml := AppendSection(secretYAML, "data:", "  ", data, dataOrder);
    yaml := AppendSection(yaml, "stringData:", "  ", stringData, stringDataOrder);
    UnlinesAppend(Section("data:", "  ", data, dataOrder), Section("stringData:", "  ", stringData, stringDataOrder));
  }
}
