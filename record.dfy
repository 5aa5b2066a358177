/**
 * The `Protect` record kept per technology name, how it comes back from the ledger after
 * the JSON round trip, and the merge rules the mutating handlers apply to it.
 */
module Record {
  import opened Wrappers

  /**
   * One technology-escrow deposit. `client` is None where Go holds a nil map: the field is
   * tagged `omitempty`, so an empty client map is not stored and reads back nil.
   */
  datatype Protect = Protect(
    technology: string,
    sort: int,
    company: string,
    comNum: int,
    term: int,
    content: map<string, string>,
    client: Option<map<string, int>>,
    enrollDate: string,
    status: int)

  /** The client map as the handlers index it: a nil map has no entries. */
  function Clients(p: Protect): map<string, int>
  {
    if p.client.Some? then p.client.value else map[]
  }

  /** A record as it can come back from the ledger: never an empty, non-nil client map. */
  predicate OmitsEmptyClient(p: Protect)
  {
    p.client != Some(map[])
  }

  /**
   * json.Marshal then json.Unmarshal of a record whose strings are Unicode text: every
   * field survives except that an empty client map becomes nil.
   */
  function ReadBack(p: Protect): (q: Protect)
    ensures OmitsEmptyClient(q)
    ensures Clients(q) == Clients(p)
    ensures q.(client := p.client) == p
  {
    if p.client == Some(map[]) then p.(client := None) else p
  }

  /** Reading back a record that was read back changes nothing more. */
  lemma ReadBackIdempotent(p: Protect)
    ensures ReadBack(ReadBack(p)) == ReadBack(p)
    ensures OmitsEmptyClient(p) ==> ReadBack(p) == p
  {
  }

  function Min(a: nat, b: nat): nat { if a < b then a else b }

  /**
   * The content map add_cont builds from the split name and hash lists: the i-th name
   * maps to the i-th hash, for as many pairs as both lists have, later pairs winning.
   */
  function ZipMap(names: seq<string>, hashes: seq<string>): map<string, string>
    decreases |names|
  {
    var n := Min(|names|, |hashes|);
    if n == 0 then map[]
    else ZipMap(names[..n - 1], hashes[..n - 1])[names[n - 1] := hashes[n - 1]]
  }

  /** No name after position i (among the first n) repeats names[i]. */
  predicate LastOccurrence(names: seq<string>, n: nat, i: nat)
    requires i < n <= |names|
  {
    forall j :: i < j < n ==> names[j] != names[i]
  }

  /** ZipMap's keys are exactly the names that have a hash beside them. */
  lemma {:induction false} ZipMapKeys(names: seq<string>, hashes: seq<string>)
    ensures ZipMap(names, hashes).Keys == set i | 0 <= i < Min(|names|, |hashes|) :: names[i]
    decreases |names|
  {
    var n := Min(|names|, |hashes|);
    if n > 0 {
      var ns, hs := names[..n - 1], hashes[..n - 1];
      ZipMapKeys(ns, hs);
      assert Min(|ns|, |hs|) == n - 1;
      assert (set i | 0 <= i < n - 1 :: ns[i]) == (set i | 0 <= i < n - 1 :: names[i]);
      assert (set i | 0 <= i < n :: names[i]) == (set i | 0 <= i < n - 1 :: names[i]) + {names[n - 1]};
    }
  }

  /**
   * Each name with a hash beside it maps to the hash beside its last occurrence; a later
   * duplicate overwrites an earlier one.
   */
  lemma {:induction false} ZipMapValues(names: seq<string>, hashes: seq<string>)
    ensures forall i :: 0 <= i < Min(|names|, |hashes|) && LastOccurrence(names, Min(|names|, |hashes|), i) ==>
              names[i] in ZipMap(names, hashes) && ZipMap(names, hashes)[names[i]] == hashes[i]
    decreases |names|
  {
    var n := Min(|names|, |hashes|);
    if n > 0 {
      var ns, hs := names[..n - 1], hashes[..n - 1];
      ZipMapValues(ns, hs);
      assert Min(|ns|, |hs|) == n - 1;
      var m := ZipMap(names, hashes);
      assert m == ZipMap(ns, hs)[names[n - 1] := hashes[n - 1]];
      forall i | 0 <= i < n && LastOccurrence(names, n, i)
        ensures names[i] in m && m[names[i]] == hashes[i]
      {
        if i < n - 1 {
          assert names[n - 1] != names[i];
          assert LastOccurrence(ns, n - 1, i);
        }
      }
    }
  }

  /** Only the first Min(|names|, |hashes|) pairs matter. */
  lemma ZipMapTruncate(names: seq<string>, hashes: seq<string>, n: nat)
    requires n == Min(|names|, |hashes|)
    ensures ZipMap(names, hashes) == ZipMap(names[..n], hashes[..n])
  {
    if n > 0 {
      assert names[..n][..n - 1] == names[..n - 1];
      assert hashes[..n][..n - 1] == hashes[..n - 1];
    }
  }

  /** One more pair extends the map built from the first i pairs. */
  lemma ZipMapStep(names: seq<string>, hashes: seq<string>, i: nat)
    requires i < |names| && i < |hashes|
    ensures ZipMap(names[..i + 1], hashes[..i + 1]) == ZipMap(names[..i], hashes[..i])[names[i] := hashes[i]]
  {
    assert names[..i + 1][..i] == names[..i];
    assert hashes[..i + 1][..i] == hashes[..i];
  }

  /** add_client's merge: the client's term is set (added or overwritten), status replaced. */
  function WithClient(p: Protect, name: string, contTerm: int, status: int): Protect
  {
    p.(client := Some(Clients(p)[name := contTerm]), status := status)
  }

  /** change_term's merge: term and status replaced, with no check that the term grows. */
  function WithTerm(p: Protect, term: int, status: int): Protect
  {
    p.(term := term, status := status)
  }

  /** add_content's merge: the file's hash is set (added or overwritten), status replaced. */
  function WithContent(p: Protect, fileName: string, fileHash: string, status: int): Protect
  {
    p.(content := p.content[fileName := fileHash], status := status)
  }

  /**
   * q is a later version of p: identity, enrolment facts and company unchanged, and no
   * file or client forgotten.
   */
  predicate Extends(p: Protect, q: Protect)
  {
    && q.technology == p.technology
    && q.sort == p.sort
    && q.company == p.company
    && q.comNum == p.comNum
    && q.enrollDate == p.enrollDate
    && p.content.Keys <= q.content.Keys
    && Clients(p).Keys <= Clients(q).Keys
  }

  /**
   * add_client adds at most one client name, sets its term, keeps every other client's
   * term, and changes nothing but the client map and the status.
   */
  lemma WithClientEffect(p: Protect, name: string, contTerm: int, status: int)
    ensures var q := WithClient(p, name, contTerm, status);
      && Clients(q).Keys == Clients(p).Keys + {name}
      && Clients(q)[name] == contTerm
      && (forall k :: k in Clients(p) && k != name ==> Clients(q)[k] == Clients(p)[k])
      && |Clients(q)| == (if name in Clients(p) then |Clients(p)| else |Clients(p)| + 1)
      && q.status == status
      && q.(client := p.client, status := p.status) == p
      && Extends(p, q)
  {
    var q := WithClient(p, name, contTerm, status);
    if name in Clients(p) {
      assert Clients(q).Keys == Clients(p).Keys;
    } else {
      assert Clients(q).Keys == Clients(p).Keys + {name};
    }
  }

  /** Adding the same client twice: the client set is the same, and the last term wins. */
  lemma WithClientTwice(p: Protect, name: string, t1: int, s1: int, t2: int, s2: int)
    ensures WithClient(WithClient(p, name, t1, s1), name, t2, s2) == WithClient(p, name, t2, s2)
  {
    assert Clients(WithClient(p, name, t1, s1))[name := t2] == Clients(p)[name := t2];
  }

  /** change_term replaces term and status, whatever their old values, and nothing else. */
  lemma WithTermEffect(p: Protect, term: int, status: int)
    ensures var q := WithTerm(p, term, status);
      && q.term == term && q.status == status
      && q.(term := p.term, status := p.status) == p
      && Extends(p, q)
  {
  }

  /**
   * add_content adds at most one file name, sets its hash, keeps every other file's hash,
   * and changes nothing but the content map and the status.
   */
  lemma WithContentEffect(p: Protect, fileName: string, fileHash: string, status: int)
    ensures var q := WithContent(p, fileName, fileHash, status);
      && q.content.Keys == p.content.Keys + {fileName}
      && q.content[fileName] == fileHash
      && (forall k :: k in p.content && k != fileName ==> q.content[k] == p.content[k])
      && |q.content| == (if fileName in p.content then |p.content| else |p.content| + 1)
      && q.status == status
      && q.(content := p.content, status := p.status) == p
      && Extends(p, q)
  {
    var q := WithContent(p, fileName, fileHash, status);
    if fileName in p.content {
      assert q.content.Keys == p.content.Keys;
    } else {
      assert q.content.Keys == p.content.Keys + {fileName};
    }
  }

  /** Adding the same file twice: the file set is the same, and the last hash wins. */
  lemma WithContentTwice(p: Protect, fileName: string, h1: string, s1: int, h2: string, s2: int)
    ensures WithContent(WithContent(p, fileName, h1, s1), fileName, h2, s2) == WithContent(p, fileName, h2, s2)
  {
  }
}
