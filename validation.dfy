/**
 * The argument checks every handler runs before it touches the ledger: the exact
 * argument count, then the non-empty positions in order, then (for add_cont) the
 * numeric fields in order.
 */
module Validation {
  import opened Wrappers
  import opened Strconv
  import opened Strs

  /** The first empty argument at or after position `from`, if any. */
  function FirstEmpty(args: seq<string>, from: nat): (r: Option<nat>)
    ensures r.Some? ==> from <= r.value < |args| && args[r.value] == ""
    ensures r.Some? ==> forall j :: from <= j < r.value ==> args[j] != ""
    ensures r.None? ==> forall j :: from <= j < |args| ==> args[j] != ""
    decreases |args| - from
  {
    if from >= |args| then None
    else if args[from] == "" then Some(from)
    else FirstEmpty(args, from + 1)
  }

  /**
   * The arity check followed by the non-emptiness checks on positions from..arity-1:
   * the message of the first check that fails, or None when all pass.
   */
  function CheckArgs(args: seq<string>, arity: nat, arityMsg: string, from: nat, emptyMsgs: seq<string>): (r: Option<string>)
    requires |emptyMsgs| == arity
    ensures r.None? <==> |args| == arity && forall j :: from <= j < arity ==> args[j] != ""
    ensures |args| != arity ==> r == Some(arityMsg)
    ensures |args| == arity && r.Some? ==>
      exists i :: from <= i < arity && args[i] == "" && r == Some(emptyMsgs[i]) &&
        forall j :: from <= j < i ==> args[j] != ""
  {
    if |args| != arity then Some(arityMsg)
    else
      match FirstEmpty(args, from)
      case Some(i) => Some(emptyMsgs[i])
      case None => None
  }

  const AddContArity := "Incorrect number of parameters. Expecting 9"

  /** add_cont's message for each empty position. */
  const AddContEmpty: seq<string> := [
    "1st argument Technology must be a non-empty string\n",
    "2nd argument Sort must be a non-empty string\n",
    "3rd argument Company must be a non-empty string\n",
    "4th argument Com_num must be a non-empty string\n",
    "5th argument Term must be a non-empty string\n",
    "6th argument File_name must be a non-empty string\n",
    "7th argument File_hash must be a non-empty string\n",
    "8th argument Enroll_date must be a non-empty string\n",
    "9th argument Status must be a non-empty string\n"]

  const SortNotNumeric := "2nd argument Sort must be a numeric string\n"
  const ComNumNotNumeric := "4th argument Company number must be a numeric string\n"
  const TermNotNumeric := "5th argument Term must be a numeric string\n"
  const StatusNotNumeric := "9th argument Status must be a numeric string\n"

  /** add_cont's arguments once checked and parsed; the file lists are split on commas. */
  datatype ContArgs = ContArgs(
    technology: string,
    sort: int,
    company: string,
    comNum: int,
    term: int,
    fileNames: seq<string>,
    fileHashes: seq<string>,
    enrollDate: string,
    status: int)

  /**
   * add_cont's argument handling: 9 arguments, none empty, then sort, com_num, term and
   * status must parse; the first failure is reported.
   */
  function ParseAddCont(args: seq<string>): (r: Result<ContArgs>)
    ensures r.Ok? <==>
      && |args| == 9
      && (forall j :: 0 <= j < 9 ==> args[j] != "")
      && Atoi(args[1]).Some? && Atoi(args[3]).Some? && Atoi(args[4]).Some? && Atoi(args[8]).Some?
    ensures r.Ok? ==> r.value.technology == args[0] && r.value.technology != ""
  {
    match CheckArgs(args, 9, AddContArity, 0, AddContEmpty)
    case Some(msg) => Err(msg)
    case None =>
      var sort, comNum, term, status := Atoi(args[1]), Atoi(args[3]), Atoi(args[4]), Atoi(args[8]);
      if sort.None? then Err(SortNotNumeric)
      else if comNum.None? then Err(ComNumNotNumeric)
      else if term.None? then Err(TermNotNumeric)
      else if status.None? then Err(StatusNotNumeric)
      else Ok(ContArgs(args[0], sort.value, args[2], comNum.value, term.value,
                       Split(args[5], ','), Split(args[6], ','), args[7], status.value))
  }

  /**
   * The argument list a caller sends for the given parsed arguments: numbers in decimal,
   * file lists joined with commas.
   */
  function UnparseAddCont(c: ContArgs): seq<string>
  {
    [c.technology, Itoa(c.sort), c.company, Itoa(c.comNum), Itoa(c.term),
     Join(c.fileNames, ','), Join(c.fileHashes, ','), c.enrollDate, Itoa(c.status)]
  }

  /** What a well-formed add_cont request can carry. */
  predicate WellFormed(c: ContArgs)
  {
    && c.technology != "" && c.company != "" && c.enrollDate != ""
    && |c.fileNames| > 0 && NoSep(c.fileNames, ',') && (|c.fileNames| > 1 || c.fileNames[0] != "")
    && |c.fileHashes| > 0 && NoSep(c.fileHashes, ',') && (|c.fileHashes| > 1 || c.fileHashes[0] != "")
    && MinInt <= c.sort <= MaxInt && MinInt <= c.comNum <= MaxInt
    && MinInt <= c.term <= MaxInt && MinInt <= c.status <= MaxInt
  }

  /** A join is empty only for a single empty piece: two or more pieces carry a separator. */
  lemma JoinNonEmpty(xs: seq<string>, sep: char)
    requires |xs| > 0 && (|xs| > 1 || xs[0] != "")
    ensures Join(xs, sep) != ""
  {
  }

  /** Every argument a caller sends for well-formed arguments is non-empty. */
  lemma UnparseNonEmpty(c: ContArgs)
    requires WellFormed(c)
    ensures |UnparseAddCont(c)| == 9 && forall j :: 0 <= j < 9 ==> UnparseAddCont(c)[j] != ""
  {
    ItoaShape(c.sort);
    ItoaShape(c.comNum);
    ItoaShape(c.term);
    ItoaShape(c.status);
    JoinNonEmpty(c.fileNames, ',');
    JoinNonEmpty(c.fileHashes, ',');
  }

  /** Parsing what a caller sends for well-formed arguments gives those arguments back. */
  lemma ParseUnparse(c: ContArgs)
    requires WellFormed(c)
    ensures ParseAddCont(UnparseAddCont(c)) == Ok(c)
  {
    UnparseNonEmpty(c);
    ItoaAtoi(c.sort);
    ItoaAtoi(c.comNum);
    ItoaAtoi(c.term);
    ItoaAtoi(c.status);
    SplitJoin(c.fileNames, ',');
    SplitJoin(c.fileHashes, ',');
  }

  /**
   * With all nine arguments present, the numeric fields are checked in order: sort,
   * com_num, term, status; the first that does not parse is the one reported.
   */
  lemma NumericCheckedInOrder(args: seq<string>)
    requires |args| == 9 && forall j :: 0 <= j < 9 ==> args[j] != ""
    ensures Atoi(args[1]).None? ==> ParseAddCont(args) == Err(SortNotNumeric)
    ensures Atoi(args[1]).Some? && Atoi(args[3]).None? ==> ParseAddCont(args) == Err(ComNumNotNumeric)
    ensures Atoi(args[1]).Some? && Atoi(args[3]).Some? && Atoi(args[4]).None? ==>
      ParseAddCont(args) == Err(TermNotNumeric)
    ensures Atoi(args[1]).Some? && Atoi(args[3]).Some? && Atoi(args[4]).Some? && Atoi(args[8]).None? ==>
      ParseAddCont(args) == Err(StatusNotNumeric)
  {
  }

  /** An empty argument is reported before any numeric check, naming the first empty position. */
  lemma {:induction false} EmptyCheckedBeforeParse(args: seq<string>, i: nat)
    requires |args| == 9 && i < 9 && args[i] == ""
    requires forall j :: 0 <= j < i ==> args[j] != ""
    ensures ParseAddCont(args) == Err(AddContEmpty[i])
  {
    var r := CheckArgs(args, 9, AddContArity, 0, AddContEmpty);
    var k :| 0 <= k < 9 && args[k] == "" && r == Some(AddContEmpty[k]) && forall j :: 0 <= j < k ==> args[j] != "";
    assert k == i;
  }
}
