/**
 * The read handlers' text output: get_tech's rendering of one record, and the JSON
 * arrays get_all_tech and get_cert_verify build from a range scan and a key history.
 * Each loop writes a comma before an entry only once an entry has been written.
 */
module Queries {
  import opened Wrappers
  import opened Strconv
  import opened Strs
  import opened Record
  import opened Shim

  /**
   * What a comma-flag loop writes for the entries xs, when `written` says whether some
   * entry was already written before them: a comma before every entry except a first one.
   */
  function Continue(written: bool, xs: seq<string>): string
  {
    if xs == [] then ""
    else Continue(written, xs[..|xs| - 1]) + (if written || |xs| > 1 then "," else "") + xs[|xs| - 1]
  }

  /** One more entry: a comma first if an entry was written before it. */
  lemma ContinueSnoc(written: bool, xs: seq<string>, x: string)
    ensures Continue(written, xs + [x]) == Continue(written, xs) + (if written || |xs| > 0 then "," else "") + x
  {
    assert (xs + [x])[..|xs|] == xs;
  }

  /** Starting with the flag clear, the loop writes exactly the comma-joined entries. */
  lemma {:induction false} ContinueFresh(xs: seq<string>)
    ensures Continue(false, xs) == Join(xs, ',')
  {
    if xs != [] {
      var init := xs[..|xs| - 1];
      ContinueFresh(init);
      JoinSnoc(init, xs[|xs| - 1], ',');
      assert init + [xs[|xs| - 1]] == xs;
    }
  }

  /** Continuing after some entries were written extends their join by the new entries. */
  lemma {:induction false} ContinueAfter(xs: seq<string>, ys: seq<string>)
    requires |xs| > 0
    ensures Join(xs, ',') + Continue(true, ys) == Join(xs + ys, ',')
  {
    if ys != [] {
      var init := ys[..|ys| - 1];
      var y := ys[|ys| - 1];
      ContinueAfter(xs, init);
      JoinSnoc(xs + init, y, ',');
      assert xs + init + [y] == xs + ys;
    } else {
      assert xs + ys == xs;
    }
  }

  /**
   * One flag shared by two loops: the second section carries on the first one's comma
   * list, so the two sections together are the comma-joined list of all entries.
   */
  lemma SharedComma(xs: seq<string>, ys: seq<string>)
    ensures Continue(false, xs) + Continue(|xs| > 0, ys) == Join(xs + ys, ',')
  {
    ContinueFresh(xs);
    if |xs| > 0 {
      ContinueAfter(xs, ys);
    } else {
      ContinueFresh(ys);
      assert xs + ys == ys;
    }
  }

  /**
   * The second section begins with a comma exactly when an entry was written before it
   * and it has an entry of its own (for entries that do not themselves start with one).
   */
  lemma {:induction false} ContinueLeadingComma(written: bool, xs: seq<string>)
    requires forall i :: 0 <= i < |xs| ==> xs[i] != "" && xs[i][0] != ','
    ensures |Continue(written, xs)| > 0 <==> |xs| > 0
    ensures |Continue(written, xs)| > 0 ==> (Continue(written, xs)[0] == ',' <==> written)
  {
    if xs != [] {
      var init := xs[..|xs| - 1];
      ContinueLeadingComma(written, init);
      if init == [] {
        assert Continue(written, xs) == (if written then "," else "") + xs[0];
      }
    }
  }

  /** The buffer after get_tech writes one more "key:value" entry under the shared flag. */
  lemma WriteEntry(prefix: string, written: bool, xs: seq<string>, buffer: string, key: string, value: string)
    requires buffer == prefix + Continue(written, xs)
    ensures (if written || |xs| > 0 then buffer + "," else buffer) + key + ":" + value ==
      prefix + Continue(written, xs + [key + ":" + value])
  {
    ContinueSnoc(written, xs, key + ":" + value);
  }

  /** One pass of a get_tech map loop: a comma if one was written before, then "key:value". */
  method AppendPair(buffer: string, checkcomma: bool, key: string, value: string) returns (out: string)
    ensures out == (if checkcomma then buffer + "," else buffer) + key + ":" + value
  {
    out := buffer;
    if checkcomma {
      out := out + ",";
    }
    out := out + key;
    out := out + ":";
    out := out + value;
  }

  /** order lists the keys of a map once each, as a Go `range` over the map visits them. */
  predicate IsOrder(order: seq<string>, keys: set<string>)
  {
    && (forall i, j :: 0 <= i < j < |order| ==> order[i] != order[j])
    && (forall i :: 0 <= i < |order| ==> order[i] in keys)
    && (forall k :: k in keys ==> k in order)
  }

  /** A file hash is written as it is. */
  function AsIs(hash: string): string { hash }

  /**
   * "key:value" for each key of the map, in the given order, the value written by `show`
   * (a file's hash as it is, a client's term in decimal).
   */
  function PairEntries<V>(m: map<string, V>, order: seq<string>, show: V -> string): (r: seq<string>)
    requires forall k :: k in order ==> k in m
    ensures |r| == |order|
    ensures forall i :: 0 <= i < |order| ==> r[i] == order[i] + ":" + show(m[order[i]])
  {
    if order == [] then []
    else
      var k := order[|order| - 1];
      PairEntries(m, order[..|order| - 1], show) + [k + ":" + show(m[k])]
  }

  /** A list with the right entry at every position is the entry list. */
  lemma PairEntriesAre<V>(m: map<string, V>, order: seq<string>, show: V -> string, written: seq<string>)
    requires forall k :: k in order ==> k in m
    requires |written| == |order|
    requires forall j :: 0 <= j < |order| ==> written[j] == order[j] + ":" + show(m[order[j]])
    ensures written == PairEntries(m, order, show)
  {
  }

  /** get_tech's text up to the opening of the embedded content object. */
  function TechHead(p: Protect): string
  {
    "{\"Protect key\":" + "\"" + p.technology + "\"" + "," +
    "\"sort\":" + "\"" + Itoa(p.sort) + "\"" + "," +
    "\"company\":" + "\"" + p.company + "\"" + "," +
    "\"company_number\":" + "\"" + Itoa(p.comNum) + "\"" + "," +
    "\"term\":" + "\"" + Itoa(p.term) + "\"" + "," +
    "\"content\":" + "\"{"
  }

  /**
   * get_tech's output for a record, with the files and clients in the order the map
   * iteration visited them. Both embedded sections continue one comma list, and no comma
   * separates the enrolment date from the status.
   */
  function TechText(p: Protect, contentOrder: seq<string>, clientOrder: seq<string>): string
    requires IsOrder(contentOrder, p.content.Keys) && IsOrder(clientOrder, Clients(p).Keys)
  {
    var ce := PairEntries(p.content, contentOrder, AsIs);
    var ke := PairEntries(Clients(p), clientOrder, Itoa);
    TechHead(p) + Continue(false, ce) + "\"}" + "," +
    "\"client:contract_term\":" + "\"{" + Continue(|ce| > 0, ke) + "\"}" + "," +
    "\"enroll_date\":" + "\"" + p.enrollDate + "\"" +
    "\"status\":" + "\"" + Itoa(p.status) + "\"" + "}"
  }

  /**
   * get_tech's `for key, value := range` loop, over the files or over the clients: each
   * entry as "key:value", a comma first whenever `checkcomma` is already set.
   */
  method WritePairs<V>(buffer: string, checkcomma: bool, m: map<string, V>, order: seq<string>, show: V -> string)
    returns (out: string, comma: bool)
    requires forall k :: k in order ==> k in m
    ensures out == buffer + Continue(checkcomma, PairEntries(m, order, show))
    ensures comma <==> checkcomma || |order| > 0
  {
    out, comma := buffer, checkcomma;
    ghost var written: seq<string> := [];
    var i := 0;
    while i < |order|
      invariant 0 <= i <= |order|
      invariant |written| == i && forall j :: 0 <= j < i ==> written[j] == order[j] + ":" + show(m[order[j]])
      invariant comma <==> checkcomma || i > 0
      invariant out == buffer + Continue(checkcomma, written)
    {
      var key := order[i];
      var value := show(m[key]);
      WriteEntry(buffer, checkcomma, written, out, key, value);
      out := AppendPair(out, comma, key, value);
      comma := true;
      written := written + [key + ":" + value];
      i := i + 1;
    }
    PairEntriesAre(m, order, show, written);
  }

  /**
   * get_tech's buffer (one record): the fixed fields, the files and then the clients under
   * one `checkcomma` flag, then enroll_date and status.
   */
  method RenderProtect(p: Protect, contentOrder: seq<string>, clientOrder: seq<string>) returns (out: string)
    requires IsOrder(contentOrder, p.content.Keys) && IsOrder(clientOrder, Clients(p).Keys)
    ensures out == TechText(p, contentOrder, clientOrder)
  {
    var checkcomma := false;
    var buffer := "{\"Protect key\":" + "\"" + p.technology + "\"" + ",";
    buffer := buffer + "\"sort\":" + "\"" + Itoa(p.sort) + "\"" + ",";
    buffer := buffer + "\"company\":" + "\"" + p.company + "\"" + ",";
    buffer := buffer + "\"company_number\":" + "\"" + Itoa(p.comNum) + "\"" + ",";
    buffer := buffer + "\"term\":" + "\"" + Itoa(p.term) + "\"" + ",";
    buffer := buffer + "\"content\":" + "\"{";
    assert buffer == TechHead(p);
    buffer, checkcomma := WritePairs(buffer, checkcomma, p.content, contentOrder, AsIs);
    assert checkcomma == (|PairEntries(p.content, contentOrder, AsIs)| > 0);
    buffer := buffer + "\"}" + ",";
    buffer := buffer + "\"client:contract_term\":" + "\"{";
    buffer, checkcomma := WritePairs(buffer, checkcomma, Clients(p), clientOrder, Itoa);
    buffer := buffer + "\"}" + ",";
    buffer := buffer + "\"enroll_date\":" + "\"" + p.enrollDate + "\"";
    buffer := buffer + "\"status\":" + "\"" + Itoa(p.status) + "\"" + "}";
    out := buffer;
  }

  /**
   * The embedded sections of get_tech's output list every file once, then every client
   * once, as one comma-joined list split between the two sections.
   */
  lemma TechSections(p: Protect, contentOrder: seq<string>, clientOrder: seq<string>)
    requires IsOrder(contentOrder, p.content.Keys) && IsOrder(clientOrder, Clients(p).Keys)
    ensures var ce := PairEntries(p.content, contentOrder, AsIs);
      var ke := PairEntries(Clients(p), clientOrder, Itoa);
      && |ce| == |p.content| && |ke| == |Clients(p)|
      && Continue(false, ce) + Continue(|ce| > 0, ke) == Join(ce + ke, ',')
  {
    OrderCovers(contentOrder, p.content.Keys);
    OrderCovers(clientOrder, Clients(p).Keys);
    SharedComma(PairEntries(p.content, contentOrder, AsIs), PairEntries(Clients(p), clientOrder, Itoa));
  }

  /** A key order has exactly as many entries as there are keys. */
  lemma {:induction false} OrderCovers(order: seq<string>, keys: set<string>)
    requires IsOrder(order, keys)
    ensures |order| == |keys|
  {
    if order != [] {
      var init := order[..|order| - 1];
      var last := order[|order| - 1];
      assert last !in init by {
        forall i | 0 <= i < |init| ensures init[i] != last {
          assert init[i] == order[i];
        }
      }
      OrderCovers(init, keys - {last});
    }
  }

  /** One item delivered by a result iterator's Next(): a value, or an error. */
  datatype Step<T> = Item(item: T) | Failure(err: string)

  /** The items the iterator delivered, in order. */
  function Items<T>(steps: seq<Step<T>>): seq<T>
  {
    if steps == [] then []
    else
      var last := steps[|steps| - 1];
      Items(steps[..|steps| - 1]) + (if last.Item? then [last.item] else [])
  }

  /** The error of the first Next() that failed, if one did. */
  function FirstFailure<T>(steps: seq<Step<T>>): Option<string>
  {
    if steps == [] then None
    else
      var f := FirstFailure(steps[..|steps| - 1]);
      if f.Some? then f
      else if steps[|steps| - 1].Failure? then Some(steps[|steps| - 1].err)
      else None
  }

  /** The first failure is the error of a failed step with only items before it. */
  lemma {:induction false} FirstFailureSpec<T>(steps: seq<Step<T>>)
    ensures FirstFailure(steps).None? <==> forall i :: 0 <= i < |steps| ==> steps[i].Item?
    ensures FirstFailure(steps).Some? ==>
      exists i :: 0 <= i < |steps| && steps[i] == Failure(FirstFailure(steps).value) &&
        forall j :: 0 <= j < i ==> steps[j].Item?
  {
    if steps != [] {
      var init := steps[..|steps| - 1];
      FirstFailureSpec(init);
      assert forall i :: 0 <= i < |init| ==> init[i] == steps[i];
    }
  }

  /** Without failures, the items are the steps one for one, in iterator order. */
  lemma {:induction false} ItemsInOrder<T>(steps: seq<Step<T>>)
    requires FirstFailure(steps).None?
    ensures |Items(steps)| == |steps|
    ensures forall i :: 0 <= i < |steps| ==> steps[i].Item? && Items(steps)[i] == steps[i].item
  {
    if steps != [] {
      var init := steps[..|steps| - 1];
      ItemsInOrder(init);
      assert forall i :: 0 <= i < |init| ==> init[i] == steps[i];
    }
  }

  /** One key/value pair of a range scan; the value is the stored record's JSON text. */
  datatype KV = KV(key: string, value: string)

  /**
   * One past version of a key: transaction id, stored value, the commit time already
   * formatted as text, and whether the version is a deletion.
   */
  datatype KeyModification = KeyModification(txId: string, value: string, timestamp: string, isDelete: bool)

  /** get_all_tech's text for one pair: the key quoted, the value spliced in as it is. */
  function RangeEntry(kv: KV): string
  {
    "{\"Key\":" + "\"" + kv.key + "\"" + ", \"Value\":" + kv.value + "}"
  }

  function FormatBool(b: bool): string { if b then "true" else "false" }

  /** A deleted version shows null for its value, whatever the ledger kept. */
  function ValueText(m: KeyModification): string
  {
    if m.isDelete then "null" else m.value
  }

  /** get_cert_verify's text for one version of the key. */
  function HistoryEntry(m: KeyModification): string
  {
    "{\"TxId\":" + "\"" + m.txId + "\"" + ", \"Value\":" + ValueText(m) +
    ", \"Timestamp\":" + "\"" + m.timestamp + "\"" + ", \"IsDelete\":" + "\"" + FormatBool(m.isDelete) + "\"" + "}"
  }

  /** The text of each item, in order. */
  function Entries<T>(render: T -> string, items: seq<T>): (r: seq<string>)
    ensures |r| == |items| && forall i :: 0 <= i < |items| ==> r[i] == render(items[i])
  {
    if items == [] then [] else Entries(render, items[..|items| - 1]) + [render(items[|items| - 1])]
  }

  /** A JSON array of the given entries. */
  function JsonArray(entries: seq<string>): string
  {
    "[" + Join(entries, ',') + "]"
  }

  /** A failed step after only items is the first failure of the whole scan. */
  lemma StepFailure<T>(steps: seq<Step<T>>, i: nat)
    requires i < |steps| && steps[i].Failure?
    requires forall j :: 0 <= j < i ==> steps[j].Item?
    ensures FirstFailure(steps) == Some(steps[i].err)
  {
    FirstFailureSpec(steps);
    if FirstFailure(steps).Some? {
      var k :| 0 <= k < |steps| && steps[k] == Failure(FirstFailure(steps).value) &&
        forall j :: 0 <= j < k ==> steps[j].Item?;
      assert k == i;
    }
  }

  /**
   * A scan whose every step delivered an item, with each item's text written in order:
   * closing the bracket completes the JSON array of the scan's items.
   */
  lemma ScanDone<T>(steps: seq<Step<T>>, render: T -> string, entries: seq<string>)
    requires forall j :: 0 <= j < |steps| ==> steps[j].Item?
    requires |entries| == |steps| && forall j :: 0 <= j < |steps| ==> entries[j] == render(steps[j].item)
    ensures FirstFailure(steps).None?
    ensures "[" + Continue(false, entries) + "]" == JsonArray(Entries(render, Items(steps)))
  {
    FirstFailureSpec(steps);
    ItemsInOrder(steps);
    assert entries == Entries(render, Items(steps));
    ContinueFresh(entries);
  }

  /** One pass of an array loop: a comma once a member was written, then the member. */
  method AppendMember(buffer: string, alreadyWritten: bool, entry: string) returns (out: string)
    ensures out == (if alreadyWritten then buffer + "," else buffer) + entry
  {
    out := buffer;
    if alreadyWritten {
      out := out + ",";
    }
    out := out + entry;
  }

  /** The buffer after one more entry of a comma-flag array loop. */
  lemma AppendEntry(buffer: string, entries: seq<string>, written: bool, entry: string)
    requires buffer == "[" + Continue(false, entries)
    requires written <==> |entries| > 0
    ensures (if written then buffer + "," else buffer) + entry == "[" + Continue(false, entries + [entry])
  {
    ContinueSnoc(false, entries, entry);
  }

  /**
   * The loop get_all_tech and get_cert_verify share: "[", then each item's text with a
   * comma before all but the first, then "]"; the first failed Next() ends it with that
   * error, as does an error opening the iterator.
   */
  method WriteArray<T>(openErr: Option<string>, steps: seq<Step<T>>, render: T -> string) returns (r: Response)
    ensures openErr.Some? ==> r == Error(openErr.value)
    ensures openErr.None? && FirstFailure(steps).Some? ==> r == Error(FirstFailure(steps).value)
    ensures openErr.None? && FirstFailure(steps).None? ==> r == Success(JsonArray(Entries(render, Items(steps))))
  {
    if openErr.Some? {
      return Error(openErr.value);
    }
    var buffer := "[";
    var bArrayMemberAlreadyWritten := false;
    ghost var entries: seq<string> := [];
    var i := 0;
    while i < |steps|
      invariant 0 <= i <= |steps|
      invariant forall j :: 0 <= j < i ==> steps[j].Item?
      invariant |entries| == i && forall j :: 0 <= j < i ==> entries[j] == render(steps[j].item)
      invariant bArrayMemberAlreadyWritten <==> i > 0
      invariant buffer == "[" + Continue(false, entries)
    {
      match steps[i]
      case Failure(e) =>
        StepFailure(steps, i);
        return Error(e);
      case Item(item) =>
        var entry := render(item);
        AppendEntry(buffer, entries, bArrayMemberAlreadyWritten, entry);
        buffer := AppendMember(buffer, bArrayMemberAlreadyWritten, entry);
        bArrayMemberAlreadyWritten := true;
        entries := entries + [entry];
      i := i + 1;
    }
    ScanDone(steps, render, entries);
    buffer := buffer + "]";
    r := Success(buffer);
  }

  const ExpectingOne := "Incorrect number of parameters. Expecting 1"

  /**
   * get_all_tech: the open-ended range scan rendered as an array of {"Key","Value"}
   * entries, one per item in iterator order; an error opening the scan or from any Next()
   * is the result instead.
   */
  method GetAllTech(openErr: Option<string>, steps: seq<Step<KV>>) returns (r: Response)
    ensures openErr.Some? ==> r == Error(openErr.value)
    ensures openErr.None? && FirstFailure(steps).Some? ==> r == Error(FirstFailure(steps).value)
    ensures openErr.None? && FirstFailure(steps).None? ==> r == Success(JsonArray(Entries(RangeEntry, Items(steps))))
  {
    r := WriteArray(openErr, steps, RangeEntry);
  }

  /**
   * get_cert_verify: exactly one argument, then the key's history rendered as an array of
   * {TxId, Value, Timestamp, IsDelete} entries, one per version in iterator order; an error
   * opening the history or from any Next() is the result instead.
   */
  method GetCertVerify(args: seq<string>, openErr: Option<string>, steps: seq<Step<KeyModification>>) returns (r: Response)
    ensures |args| != 1 ==> r == Error(ExpectingOne)
    ensures |args| == 1 && openErr.Some? ==> r == Error(openErr.value)
    ensures |args| == 1 && openErr.None? && FirstFailure(steps).Some? ==> r == Error(FirstFailure(steps).value)
    ensures |args| == 1 && openErr.None? && FirstFailure(steps).None? ==>
      r == Success(JsonArray(Entries(HistoryEntry, Items(steps))))
  {
    if |args| != 1 {
      return Error(ExpectingOne);
    }
    r := WriteArray(openErr, steps, HistoryEntry);
  }
}
