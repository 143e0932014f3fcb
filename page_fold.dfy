/** The fold both page handlers run over a raw page: every entry is handed
    to the entity parser, entries that fail to parse are skipped, and the
    parsed items are kept in page order. */
module PageFold {
  import opened Wrappers

  /** `users.get(users.size() - 1)` on an empty list throws. */
  datatype PageError = IndexOutOfBounds

  /** The items of `raw` that parse, in page order. */
  function Parsed<R, T>(raw: seq<R>, parse: R -> Option<T>): (items: seq<T>)
    ensures |items| <= |raw|
  {
    if raw == [] then []
    else (if parse(raw[0]).Some? then [parse(raw[0]).value] else []) + Parsed(raw[1..], parse)
  }

  /** One more entry at the end of the page adds its item, if it parses,
      at the end of the result. */
  lemma {:induction false} ParsedAppend<R, T>(raw: seq<R>, entry: R, parse: R -> Option<T>)
    ensures Parsed(raw + [entry], parse)
            == Parsed(raw, parse) + (if parse(entry).Some? then [parse(entry).value] else [])
  {
    if raw != [] {
      assert (raw + [entry])[1..] == raw[1..] + [entry];
      ParsedAppend(raw[1..], entry, parse);
    }
  }

  /** The indices of the entries that parse, in increasing order. */
  function ParsedIndices<R, T>(raw: seq<R>, parse: R -> Option<T>, from: nat): (idx: seq<nat>)
    requires from <= |raw|
    ensures forall k :: 0 <= k < |idx| ==> from <= idx[k] < |raw| && parse(raw[idx[k]]).Some?
    ensures forall k, l :: 0 <= k < l < |idx| ==> idx[k] < idx[l]
    decreases |raw| - from
  {
    if from == |raw| then []
    else (if parse(raw[from]).Some? then [from] else []) + ParsedIndices(raw, parse, from + 1)
  }

  /** The parsed items are exactly the parses of the parsable entries, taken
      in increasing index order: nothing is reordered, duplicated or lost. */
  lemma {:induction false} ParsedInOrder<R, T>(raw: seq<R>, parse: R -> Option<T>, from: nat)
    requires from <= |raw|
    ensures |Parsed(raw[from..], parse)| == |ParsedIndices(raw, parse, from)|
    ensures forall k :: 0 <= k < |ParsedIndices(raw, parse, from)| ==>
              Parsed(raw[from..], parse)[k] == parse(raw[ParsedIndices(raw, parse, from)[k]]).value
    ensures forall j :: from <= j < |raw| && parse(raw[j]).Some? ==> j in ParsedIndices(raw, parse, from)
    decreases |raw| - from
  {
    if from < |raw| {
      assert raw[from..][1..] == raw[from + 1..];
      ParsedInOrder(raw, parse, from + 1);
    }
  }

  /** No item is produced exactly when no entry parses. */
  lemma {:induction false} ParsedEmptyIff<R, T>(raw: seq<R>, parse: R -> Option<T>)
    ensures Parsed(raw, parse) == [] <==> forall i :: 0 <= i < |raw| ==> parse(raw[i]).None?
  {
    if raw != [] {
      ParsedEmptyIff(raw[1..], parse);
      assert forall i :: 1 <= i < |raw| ==> raw[i] == raw[1..][i - 1];
    }
  }

  /** When every entry parses, the result has one item per entry. */
  lemma {:induction false} ParsedAll<R, T>(raw: seq<R>, parse: R -> Option<T>)
    requires forall i :: 0 <= i < |raw| ==> parse(raw[i]).Some?
    ensures |Parsed(raw, parse)| == |raw|
    ensures forall i :: 0 <= i < |raw| ==> Parsed(raw, parse)[i] == parse(raw[i]).value
  {
    if raw != [] {
      ParsedAll(raw[1..], parse);
    }
  }

  /** The last parsed item comes from the last entry that parses: a bad
      trailing entry cannot decide the cursor. */
  lemma LastParsedIsLastParsable<R, T>(raw: seq<R>, parse: R -> Option<T>)
    requires Parsed(raw, parse) != []
    ensures exists j :: 0 <= j < |raw|
              && parse(raw[j]) == Some(Parsed(raw, parse)[|Parsed(raw, parse)| - 1])
              && forall k :: j < k < |raw| ==> parse(raw[k]).None?
  {
    var items := Parsed(raw, parse);
    var idx := ParsedIndices(raw, parse, 0);
    assert raw[0..] == raw;
    ParsedInOrder(raw, parse, 0);
    assert |items| == |idx|;
    var last := |idx| - 1;
    var j := idx[last];
    assert items[last] == parse(raw[j]).value;
    assert parse(raw[j]).Some?;
    forall k | 0 <= k < |raw| && parse(raw[k]).Some?
      ensures k <= j
    {
      ParsableAtMostLast(raw, parse, idx, k);
    }
  }

  lemma ParsableAtMostLast<R, T>(raw: seq<R>, parse: R -> Option<T>, idx: seq<nat>, k: nat)
    requires idx == ParsedIndices(raw, parse, 0) && idx != []
    requires forall j :: 0 <= j < |raw| && parse(raw[j]).Some? ==> j in idx
    requires k < |raw| && parse(raw[k]).Some?
    ensures k <= idx[|idx| - 1]
  {
    var m :| 0 <= m < |idx| && idx[m] == k;
    assert m < |idx| - 1 ==> idx[m] < idx[|idx| - 1];
  }
}
