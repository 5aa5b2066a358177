/**
 * The escrow chaincode's handlers over the world state: registering a technology,
 * adding a client, changing the term, adding content, reading one record, and the
 * dispatch by function name.
 */
module Chaincode {
  import opened Wrappers
  import opened Strconv
  import opened Record
  import opened Validation
  import opened Shim
  import opened Queries

  const ArityFour := "Incorrect number of arguments. Expecting 4"
  const ArityThree := "Incorrect number of arguments. Expecting 3"
  const NotExist := "Technology does not exist"
  const NotFound := "Could not find protect data"
  const InvalidName := "Invaild Function Name"

  /** add_client checks positions 1..3 (the technology name is not checked). */
  const AddClientEmpty: seq<string> := [
    "",
    "2nd argument Client must be a non-empty string\n",
    "3nd argument Contract Term must be a non-empty string\n",
    "4nd argument Status must be a non-empty string\n"]

  /** change_term checks positions 1..2. */
  const ChangeTermEmpty: seq<string> := [
    "",
    "2nd argument Term must be a non-empty string\n",
    "3nd argument Status must be a non-empty string\n"]

  /** add_content checks positions 1..3. */
  const AddContentEmpty: seq<string> := [
    "",
    "2nd argument File_name must be a non-empty string\n",
    "3nd argument File_hash must be a non-empty string\n",
    "4nd argument Status must be a non-empty string\n"]

  /**
   * The record add_cont writes for parsed arguments, as it reads back: the zipped content
   * map, an empty client map (which reads back nil), every other field as parsed.
   */
  function NewProtect(c: ContArgs): Protect
  {
    ReadBack(Protect(c.technology, c.sort, c.company, c.comNum, c.term,
                     ZipMap(c.fileNames, c.fileHashes), Some(map[]), c.enrollDate, c.status))
  }

  /**
   * A newly registered record carries exactly what was passed: its files are the zipped
   * name/hash pairs (last duplicate winning), it has no clients, and its client field
   * reads back nil.
   */
  lemma NewProtectFields(c: ContArgs)
    ensures var p := NewProtect(c);
      && p.technology == c.technology && p.sort == c.sort && p.company == c.company
      && p.comNum == c.comNum && p.term == c.term && p.enrollDate == c.enrollDate
      && p.status == c.status
      && p.client.None? && Clients(p) == map[]
      && p.content.Keys == (set i | 0 <= i < Min(|c.fileNames|, |c.fileHashes|) :: c.fileNames[i])
      && (forall i ::
            (0 <= i < Min(|c.fileNames|, |c.fileHashes|) && LastOccurrence(c.fileNames, Min(|c.fileNames|, |c.fileHashes|), i))
            ==> p.content[c.fileNames[i]] == c.fileHashes[i])
  {
    ZipMapKeys(c.fileNames, c.fileHashes);
    ZipMapValues(c.fileNames, c.fileHashes);
  }

  /**
   * Arguments for which each updater's own checks all pass: the arity, the non-empty
   * positions, and every listed position numeric.
   */
  predicate UpdateArgsOk(args: seq<string>, arity: nat, emptyMsgs: seq<string>, numeric: set<nat>)
    requires |emptyMsgs| == arity
  {
    && CheckArgs(args, arity, if arity == 4 then ArityFour else ArityThree, 1, emptyMsgs).None?
    && forall i :: i in numeric && i < |args| ==> Atoi(args[i]).Some?
  }

  /**
   * add_cont's loop over the file lists: pair the i-th name with the i-th hash while both
   * lists have an i-th element, a later duplicate name overwriting an earlier one.
   */
  method ZipContent(names: seq<string>, hashes: seq<string>) returns (content: map<string, string>)
    ensures content == ZipMap(names, hashes)
  {
    content := map[];
    var i := 0;
    while i < |names| && i < |hashes|
      invariant 0 <= i <= Min(|names|, |hashes|)
      invariant content == ZipMap(names[..i], hashes[..i])
    {
      ZipMapStep(names, hashes, i);
      content := content[names[i] := hashes[i]];
      i := i + 1;
    }
    ZipMapTruncate(names, hashes, i);
  }

  /**
   * Nothing is ever deleted: every record stored before is still stored, and its stored
   * version extends the old one (same identity, no file or client forgotten).
   */
  predicate KeepsRecords(before: map<string, Protect>, after: map<string, Protect>)
  {
    forall k :: k in before ==> k in after && Extends(before[k], after[k])
  }

  lemma KeepsRecordsUnchanged(m: map<string, Protect>)
    ensures KeepsRecords(m, m)
  {
  }

  /** Storing a record under a new name keeps every record. */
  lemma KeepsRecordsStore(m: map<string, Protect>, k: string, q: Protect)
    requires k !in m
    ensures KeepsRecords(m, m[k := q])
  {
  }

  /** Storing (as it reads back) a new version that extends the old one keeps every record. */
  lemma KeepsRecordsUpdate(m: map<string, Protect>, k: string, q: Protect)
    requires k in m && Extends(m[k], q)
    ensures KeepsRecords(m, m[k := ReadBack(q)])
  {
  }

  /** The function names Invoke dispatches; any other name is refused. */
  const Handlers: set<string> :=
    {"init", "add_cont", "add_client", "change_term", "add_content", "get_cert_verify", "get_tech", "get_all_tech"}

  /**
   * What a transaction sees of its surroundings besides the world state: store faults, the
   * order in which Go's map iteration visits the record's files and clients, and the
   * results of the range and history iterators (an open error, then the steps).
   */
  datatype Env = Env(
    faults: Faults,
    contentOrder: seq<string>,
    clientOrder: seq<string>,
    rangeOpen: Option<string>,
    rangeSteps: seq<Step<KV>>,
    historyOpen: Option<string>,
    historySteps: seq<Step<KeyModification>>)

  /** The ledger's world state as this chaincode sees it. */
  class Ledger {
    /** Each stored technology name and its record, as it reads back. */
    var state: map<string, Protect>

    /**
     * Every record is stored under its own non-empty technology name, and never holds an
     * empty, non-nil client map.
     */
    ghost predicate Valid()
      reads this
    {
      forall k :: k in state ==> k != "" && state[k].technology == k && OmitsEmptyClient(state[k])
    }

    constructor ()
      ensures Valid() && state == map[]
    {
      state := map[];
    }

    /**
     * add_cont: register a technology. Argument errors come first, then the existence
     * probe; the record is written only when the name is new.
     */
    method AddCont(args: seq<string>, faults: Faults) returns (r: Response)
      requires Valid()
      modifies this
      ensures Valid()
      ensures r.Error? ==> state == old(state)
      ensures KeepsRecords(old(state), state)
      ensures ParseAddCont(args).Err? ==> r == Error(ParseAddCont(args).error)
      ensures ParseAddCont(args).Ok? && faults.getErr.Some? ==>
        r == Error("Failed to get technology: " + faults.getErr.value)
      ensures ParseAddCont(args).Ok? && faults.getErr.None? && args[0] in old(state) ==>
        r == Error("This technology already exists: " + args[0])
      ensures ParseAddCont(args).Ok? && faults.getErr.None? && args[0] !in old(state) && faults.putErr.Some? ==>
        r == Error("Failed to record protect : " + args[0])
      ensures r.Success? <==>
        ParseAddCont(args).Ok? && faults.getErr.None? && faults.putErr.None? && args[0] !in old(state)
      ensures r.Success? ==> r.payload == "" && state == old(state)[args[0] := NewProtect(ParseAddCont(args).value)]
    {
      KeepsRecordsUnchanged(state);
      var parsed := ParseAddCont(args);
      if parsed.Err? {
        return Error(parsed.error);
      }
      var c := parsed.value;
      var content := ZipContent(c.fileNames, c.fileHashes);
      var client: map<string, int> := map[];

      if faults.getErr.Some? {
        return Error("Failed to get technology: " + faults.getErr.value);
      } else if c.technology in state {
        return Error("This technology already exists: " + c.technology);
      }
      var protect := Protect(c.technology, c.sort, c.company, c.comNum, c.term, content, Some(client), c.enrollDate, c.status);
      if faults.putErr.Some? {
        return Error("Failed to record protect : " + args[0]);
      }
      assert ReadBack(protect) == NewProtect(c);
      KeepsRecordsStore(state, c.technology, ReadBack(protect));
      state := state[c.technology := ReadBack(protect)];
      r := Success("");
    }

    /**
     * add_client: set one client's contract term on an existing record and replace its
     * status. The existence probe comes before the numeric checks.
     */
    method AddClient(args: seq<string>, faults: Faults) returns (r: Response)
      requires Valid()
      modifies this
      ensures Valid()
      ensures r.Error? ==> state == old(state)
      ensures KeepsRecords(old(state), state)
      ensures CheckArgs(args, 4, ArityFour, 1, AddClientEmpty).Some? ==>
        r == Error(CheckArgs(args, 4, ArityFour, 1, AddClientEmpty).value)
      ensures CheckArgs(args, 4, ArityFour, 1, AddClientEmpty).None? && faults.getErr.Some? ==>
        r == Error("Failed to get Technology : " + faults.getErr.value)
      ensures CheckArgs(args, 4, ArityFour, 1, AddClientEmpty).None? && faults.getErr.None? && args[0] !in old(state) ==>
        r == Error(NotExist)
      ensures CheckArgs(args, 4, ArityFour, 1, AddClientEmpty).None? && faults.getErr.None? && args[0] in old(state) ==>
        && (Atoi(args[2]).None? ==> r == Error("3th argument Contract term must be a numeric string\n"))
        && (Atoi(args[2]).Some? && Atoi(args[3]).None? ==> r == Error("4th argument Status must be a numeric string\n"))
        && (Atoi(args[2]).Some? && Atoi(args[3]).Some? && faults.putErr.Some? ==>
              r == Error("Failed to add client : " + args[0]))
      ensures r.Success? <==>
        UpdateArgsOk(args, 4, AddClientEmpty, {2, 3}) && faults.getErr.None? && faults.putErr.None? && args[0] in old(state)
      ensures r.Success? ==> r.payload == ""
      ensures r.Success? ==>
        |args| == 4 && args[0] in old(state) && Atoi(args[2]).Some? && Atoi(args[3]).Some? &&
        state == old(state)[args[0] := WithClient(old(state)[args[0]], args[1], Atoi(args[2]).value, Atoi(args[3]).value)]
    {
      KeepsRecordsUnchanged(state);
      var check := CheckArgs(args, 4, ArityFour, 1, AddClientEmpty);
      if check.Some? {
        return Error(check.value);
      }
      if faults.getErr.Some? {
        return Error("Failed to get Technology : " + faults.getErr.value);
      } else if args[0] !in state {
        return Error(NotExist);
      }
      var contTerm := Atoi(args[2]);
      if contTerm.None? {
        return Error("3th argument Contract term must be a numeric string\n");
      }
      var status := Atoi(args[3]);
      if status.None? {
        return Error("4th argument Status must be a numeric string\n");
      }
      var protect := state[args[0]];
      if protect.client.None? {
        var client := map[args[1] := contTerm.value];
        protect := protect.(client := Some(client));
      }
      protect := protect.(client := Some(protect.client.value[args[1] := contTerm.value]));
      protect := protect.(status := status.value);
      assert protect.client.value == Clients(state[args[0]])[args[1] := contTerm.value];
      assert args[1] in protect.client.value;
      assert protect == WithClient(state[args[0]], args[1], contTerm.value, status.value);
      if faults.putErr.Some? {
        return Error("Failed to add client : " + args[0]);
      }
      KeepsRecordsUpdate(state, args[0], protect);
      state := state[args[0] := ReadBack(protect)];
      r := Success("");
    }

    /** change_term: replace the term and the status of an existing record. */
    method ChangeTerm(args: seq<string>, faults: Faults) returns (r: Response)
      requires Valid()
      modifies this
      ensures Valid()
      ensures r.Error? ==> state == old(state)
      ensures KeepsRecords(old(state), state)
      ensures CheckArgs(args, 3, ArityThree, 1, ChangeTermEmpty).Some? ==>
        r == Error(CheckArgs(args, 3, ArityThree, 1, ChangeTermEmpty).value)
      ensures CheckArgs(args, 3, ArityThree, 1, ChangeTermEmpty).None? && faults.getErr.Some? ==>
        r == Error("Failed to get Technology : " + faults.getErr.value)
      ensures CheckArgs(args, 3, ArityThree, 1, ChangeTermEmpty).None? && faults.getErr.None? && args[0] !in old(state) ==>
        r == Error(NotExist)
      ensures CheckArgs(args, 3, ArityThree, 1, ChangeTermEmpty).None? && faults.getErr.None? && args[0] in old(state) ==>
        && (Atoi(args[1]).None? ==> r == Error("2th argument Term must be a numeric string\n"))
        && (Atoi(args[1]).Some? && Atoi(args[2]).None? ==> r == Error("3th argument Status must be a numeric string\n"))
        && (Atoi(args[1]).Some? && Atoi(args[2]).Some? && faults.putErr.Some? ==>
              r == Error("Failed to change term: " + args[0]))
      ensures r.Success? <==>
        UpdateArgsOk(args, 3, ChangeTermEmpty, {1, 2}) && faults.getErr.None? && faults.putErr.None? && args[0] in old(state)
      ensures r.Success? ==> r.payload == ""
      ensures r.Success? ==>
        |args| == 3 && args[0] in old(state) && Atoi(args[1]).Some? && Atoi(args[2]).Some? &&
        state == old(state)[args[0] := WithTerm(old(state)[args[0]], Atoi(args[1]).value, Atoi(args[2]).value)]
    {
      KeepsRecordsUnchanged(state);
      var check := CheckArgs(args, 3, ArityThree, 1, ChangeTermEmpty);
      if check.Some? {
        return Error(check.value);
      }
      if faults.getErr.Some? {
        return Error("Failed to get Technology : " + faults.getErr.value);
      } else if args[0] !in state {
        return Error(NotExist);
      }
      var updateTerm := Atoi(args[1]);
      if updateTerm.None? {
        return Error("2th argument Term must be a numeric string\n");
      }
      var status := Atoi(args[2]);
      if status.None? {
        return Error("3th argument Status must be a numeric string\n");
      }
      var protect := state[args[0]];
      protect := protect.(term := updateTerm.value);
      protect := protect.(status := status.value);
      if faults.putErr.Some? {
        return Error("Failed to change term: " + args[0]);
      }
      KeepsRecordsUpdate(state, args[0], protect);
      state := state[args[0] := ReadBack(protect)];
      r := Success("");
    }

    /** add_content: set one file's hash on an existing record and replace its status. */
    method AddContent(args: seq<string>, faults: Faults) returns (r: Response)
      requires Valid()
      modifies this
      ensures Valid()
      ensures r.Error? ==> state == old(state)
      ensures KeepsRecords(old(state), state)
      ensures CheckArgs(args, 4, ArityFour, 1, AddContentEmpty).Some? ==>
        r == Error(CheckArgs(args, 4, ArityFour, 1, AddContentEmpty).value)
      ensures CheckArgs(args, 4, ArityFour, 1, AddContentEmpty).None? && faults.getErr.Some? ==>
        r == Error("Failed to get Technology : " + faults.getErr.value)
      ensures CheckArgs(args, 4, ArityFour, 1, AddContentEmpty).None? && faults.getErr.None? && args[0] !in old(state) ==>
        r == Error(NotExist)
      ensures CheckArgs(args, 4, ArityFour, 1, AddContentEmpty).None? && faults.getErr.None? && args[0] in old(state) ==>
        && (Atoi(args[3]).None? ==> r == Error("4th argument Status must be a numeric string\n"))
        && (Atoi(args[3]).Some? && faults.putErr.Some? ==> r == Error("Failed to add content : " + args[0]))
      ensures r.Success? <==>
        UpdateArgsOk(args, 4, AddContentEmpty, {3}) && faults.getErr.None? && faults.putErr.None? && args[0] in old(state)
      ensures r.Success? ==> r.payload == ""
      ensures r.Success? ==>
        |args| == 4 && args[0] in old(state) && Atoi(args[3]).Some? &&
        state == old(state)[args[0] := WithContent(old(state)[args[0]], args[1], args[2], Atoi(args[3]).value)]
    {
      KeepsRecordsUnchanged(state);
      var check := CheckArgs(args, 4, ArityFour, 1, AddContentEmpty);
      if check.Some? {
        return Error(check.value);
      }
      if faults.getErr.Some? {
        return Error("Failed to get Technology : " + faults.getErr.value);
      } else if args[0] !in state {
        return Error(NotExist);
      }
      var status := Atoi(args[3]);
      if status.None? {
        return Error("4th argument Status must be a numeric string\n");
      }
      var protect := state[args[0]];
      protect := protect.(content := protect.content[args[1] := args[2]]);
      protect := protect.(status := status.value);
      if faults.putErr.Some? {
        return Error("Failed to add content : " + args[0]);
      }
      KeepsRecordsUpdate(state, args[0], protect);
      state := state[args[0] := ReadBack(protect)];
      r := Success("");
    }

    /**
     * get_tech: exactly one argument; an absent record (or a failed read, whose error the
     * handler drops) is "Could not find protect data"; otherwise the rendered record, its
     * files and clients in the order the map iteration visits them.
     */
    method GetTech(args: seq<string>, faults: Faults, contentOrder: seq<string>, clientOrder: seq<string>)
      returns (r: Response)
      requires |args| == 1 && faults.getErr.None? && args[0] in state ==>
        IsOrder(contentOrder, state[args[0]].content.Keys) && IsOrder(clientOrder, Clients(state[args[0]]).Keys)
      ensures |args| != 1 ==> r == Error(ExpectingOne)
      ensures |args| == 1 && (faults.getErr.Some? || args[0] !in state) ==> r == Error(NotFound)
      ensures |args| == 1 && faults.getErr.None? && args[0] in state ==>
        r == Success(TechText(state[args[0]], contentOrder, clientOrder))
    {
      if |args| != 1 {
        return Error(ExpectingOne);
      }
      if faults.getErr.Some? || args[0] !in state {
        return Error(NotFound);
      }
      var text := RenderProtect(state[args[0]], contentOrder, clientOrder);
      r := Success(text);
    }

    /**
     * Invoke: dispatch on the function name. Queries and init never change the state; an
     * unknown name is refused with the source's own (misspelt) message.
     */
    method Invoke(fn: string, args: seq<string>, env: Env) returns (r: Response)
      requires Valid()
      requires fn == "get_tech" && |args| == 1 && env.faults.getErr.None? && args[0] in state ==>
        IsOrder(env.contentOrder, state[args[0]].content.Keys)
        && IsOrder(env.clientOrder, Clients(state[args[0]]).Keys)
      modifies this
      ensures Valid()
      ensures r.Error? ==> state == old(state)
      ensures KeepsRecords(old(state), state)
      ensures fn !in {"add_cont", "add_client", "change_term", "add_content"} ==> state == old(state)
      ensures fn !in Handlers ==> r == Error(InvalidName)
      ensures fn == "init" ==> r == Success("")
      ensures fn == "add_cont" ==> (r.Success? <==>
        ParseAddCont(args).Ok? && env.faults.getErr.None? && env.faults.putErr.None? && args[0] !in old(state))
      ensures fn == "add_cont" && r.Success? ==> state == old(state)[args[0] := NewProtect(ParseAddCont(args).value)]
      ensures fn == "add_client" ==> (r.Success? <==>
        UpdateArgsOk(args, 4, AddClientEmpty, {2, 3}) && env.faults.getErr.None? && env.faults.putErr.None? && args[0] in old(state))
      ensures fn == "add_client" && r.Success? ==>
        |args| == 4 && args[0] in old(state) && Atoi(args[2]).Some? && Atoi(args[3]).Some? &&
        state == old(state)[args[0] := WithClient(old(state)[args[0]], args[1], Atoi(args[2]).value, Atoi(args[3]).value)]
      ensures fn == "change_term" ==> (r.Success? <==>
        UpdateArgsOk(args, 3, ChangeTermEmpty, {1, 2}) && env.faults.getErr.None? && env.faults.putErr.None? && args[0] in old(state))
      ensures fn == "change_term" && r.Success? ==>
        |args| == 3 && args[0] in old(state) && Atoi(args[1]).Some? && Atoi(args[2]).Some? &&
        state == old(state)[args[0] := WithTerm(old(state)[args[0]], Atoi(args[1]).value, Atoi(args[2]).value)]
      ensures fn == "add_content" ==> (r.Success? <==>
        UpdateArgsOk(args, 4, AddContentEmpty, {3}) && env.faults.getErr.None? && env.faults.putErr.None? && args[0] in old(state))
      ensures fn == "add_content" && r.Success? ==>
        |args| == 4 && args[0] in old(state) && Atoi(args[3]).Some? &&
        state == old(state)[args[0] := WithContent(old(state)[args[0]], args[1], args[2], Atoi(args[3]).value)]
      ensures fn == "get_tech" && |args| == 1 && env.faults.getErr.None? && args[0] in state ==>
        r == Success(TechText(state[args[0]], env.contentOrder, env.clientOrder))
      ensures fn == "get_tech" && |args| == 1 && (env.faults.getErr.Some? || args[0] !in state) ==>
        r == Error(NotFound)
      ensures fn == "get_tech" && |args| != 1 ==> r == Error(ExpectingOne)
      ensures fn == "get_all_tech" && env.rangeOpen.Some? ==> r == Error(env.rangeOpen.value)
      ensures fn == "get_all_tech" && env.rangeOpen.None? && FirstFailure(env.rangeSteps).Some? ==>
        r == Error(FirstFailure(env.rangeSteps).value)
      ensures fn == "get_all_tech" && env.rangeOpen.None? && FirstFailure(env.rangeSteps).None? ==>
        r == Success(JsonArray(Entries(RangeEntry, Items(env.rangeSteps))))
      ensures fn == "get_cert_verify" && |args| != 1 ==> r == Error(ExpectingOne)
      ensures fn == "get_cert_verify" && |args| == 1 && env.historyOpen.Some? ==> r == Error(env.historyOpen.value)
      ensures fn == "get_cert_verify" && |args| == 1 && env.historyOpen.None? && FirstFailure(env.historySteps).Some? ==>
        r == Error(FirstFailure(env.historySteps).value)
      ensures fn == "get_cert_verify" && |args| == 1 && env.historyOpen.None? && FirstFailure(env.historySteps).None? ==>
        r == Success(JsonArray(Entries(HistoryEntry, Items(env.historySteps))))
    {
      KeepsRecordsUnchanged(state);
      if fn == "init" {
        r := Success("");
      } else if fn == "add_cont" {
        r := AddCont(args, env.faults);
      } else if fn == "add_client" {
        r := AddClient(args, env.faults);
      } else if fn == "change_term" {
        r := ChangeTerm(args, env.faults);
      } else if fn == "add_content" {
        r := AddContent(args, env.faults);
      } else if fn == "get_cert_verify" {
        r := GetCertVerify(args, env.historyOpen, env.historySteps);
      } else if fn == "get_tech" {
        r := GetTech(args, env.faults, env.contentOrder, env.clientOrder);
      } else if fn == "get_all_tech" {
        r := GetAllTech(env.rangeOpen, env.rangeSteps);
      } else {
        r := Error(InvalidName);
      }
    }
  }
}
