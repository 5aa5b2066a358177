/**
 * A worked run of the chaincode: register technology T1 for Acme with one file, add client
 * ClientX twice, and read the record back after each step.
 */
module Scenario {
  import opened Wrappers
  import opened Strconv
  import opened Record
  import opened Validation
  import opened Shim
  import opened Queries
  import opened Chaincode

  const NoFaults := Faults(None, None)

  /** get_tech's text for T1 up to its file list. */
  const T1Head :=
    "{\"Protect key\":" + "\"" + "T1" + "\"" + "," +
    "\"sort\":" + "\"" + "3" + "\"" + "," +
    "\"company\":" + "\"" + "Acme" + "\"" + "," +
    "\"company_number\":" + "\"" + "100" + "\"" + "," +
    "\"term\":" + "\"" + "12" + "\"" + "," +
    "\"content\":" + "\"{"

  /** The rendering get_tech gives T1 for a given client section and status. */
  function T1Text(clients: string, status: string): string
  {
    T1Head + "a.txt:deadbeef" + "\"}" + "," +
    "\"client:contract_term\":" + "\"{" + clients + "\"}" + "," +
    "\"enroll_date\":" + "\"" + "2020-01-01" + "\"" +
    "\"status\":" + "\"" + status + "\"" + "}"
  }

  /** The decimal spellings the run uses. */
  lemma Spellings()
    ensures Itoa(1) == "1" && Itoa(3) == "3" && Itoa(4) == "4" && Itoa(6) == "6" && Itoa(9) == "9"
    ensures Itoa(12) == "12" && Itoa(100) == "100"
  {
    assert NatDigits(10) == "10";
  }

  /** T1's add_cont arguments as parsed. */
  const T1Args := ContArgs("T1", 3, "Acme", 100, 12, ["a.txt"], ["deadbeef"], "2020-01-01", 1)

  /** T1 as registered: its one file, no client, status 1. */
  const T1 := Protect("T1", 3, "Acme", 100, 12, map["a.txt" := "deadbeef"], None, "2020-01-01", 1)

  lemma RegisteredT1()
    ensures NewProtect(T1Args) == T1
  {
    assert ZipMap(["a.txt"], ["deadbeef"]) == map["a.txt" := "deadbeef"];
  }

  /** T1's file list renders as its one name:hash pair. */
  lemma {:induction false} ContentSection(content: map<string, string>)
    requires content == map["a.txt" := "deadbeef"]
    ensures IsOrder(["a.txt"], content.Keys)
    ensures Continue(false, PairEntries(content, ["a.txt"], AsIs)) == "a.txt:deadbeef"
  {
    var x := "a.txt" + ":" + "deadbeef";
    var ce := PairEntries(content, ["a.txt"], AsIs);
    assert |ce| == 1 && ce[0] == x;
    assert ce == [] + [x];
    ContinueSnoc(false, [], x);
    assert Continue(false, []) == "";
    assert "" + "" + x == x;
    assert x == "a.txt:deadbeef";
  }

  /** Whatever its client and status, T1's text starts with the same head. */
  lemma {:induction false} HeadT1(p: Protect)
    requires p.(client := None, status := 1) == T1
    ensures TechHead(p) == T1Head
  {
    Spellings();
    assert p.technology == "T1" && p.sort == 3 && p.company == "Acme";
    assert p.comNum == 100 && p.term == 12;
  }

  /** The text of T1 with the given client section and status, as get_tech renders it. */
  lemma {:induction false} RenderT1(p: Protect, clientOrder: seq<string>, clientText: string)
    requires p.(client := None, status := 1) == T1
    requires IsOrder(clientOrder, Clients(p).Keys)
    requires Continue(true, PairEntries(Clients(p), clientOrder, Itoa)) == clientText
    ensures IsOrder(["a.txt"], p.content.Keys)
    ensures TechText(p, ["a.txt"], clientOrder) == T1Text(clientText, Itoa(p.status))
  {
    assert p.content == T1.content;
    ContentSection(p.content);
    HeadT1(p);
    assert p.enrollDate == "2020-01-01";
  }

  /** T1's client section once ClientX holds a contract of the given term. */
  lemma {:induction false} ClientSection(clients: map<string, int>, term: int)
    requires clients == map["ClientX" := term]
    ensures IsOrder(["ClientX"], clients.Keys)
    ensures Continue(true, PairEntries(clients, ["ClientX"], Itoa)) == ",ClientX:" + Itoa(term)
  {
    var x := "ClientX" + ":" + Itoa(term);
    var ke := PairEntries(clients, ["ClientX"], Itoa);
    assert |ke| == 1 && ke[0] == x;
    assert ke == [] + [x];
    ContinueSnoc(true, [], x);
    assert Continue(true, []) == "";
    assert "" + "," + x == "," + x;
    assert "," + x == ",ClientX:" + Itoa(term);
  }

  /** add_client's checks pass for a named record and client with a numeric term and status. */
  lemma {:induction false} AddClientArgs(args: seq<string>, name: string, client: string, term: int, status: int)
    requires args == [name, client, Itoa(term), Itoa(status)] && name != "" && client != ""
    requires MinInt <= term <= MaxInt && MinInt <= status <= MaxInt
    ensures UpdateArgsOk(args, 4, AddClientEmpty, {2, 3})
    ensures Atoi(args[2]) == Some(term) && Atoi(args[3]) == Some(status)
  {
    ItoaAtoi(term);
    ItoaAtoi(status);
    ItoaShape(term);
    ItoaShape(status);
    assert forall j :: 1 <= j < 4 ==> args[j] != "";
  }

  /** add_cont with the spelling of well-formed arguments registers the new record. */
  method Register(ledger: Ledger, c: ContArgs) returns (r: Response)
    requires ledger.Valid() && WellFormed(c) && c.technology !in ledger.state
    modifies ledger
    ensures ledger.Valid() && r == Success("")
    ensures ledger.state == old(ledger.state)[c.technology := NewProtect(c)]
  {
    ParseUnparse(c);
    r := ledger.AddCont(UnparseAddCont(c), NoFaults);
  }

  /** add_client with numeric term and status on a ledger holding one record records the client. */
  method Contract(ledger: Ledger, p: Protect, client: string, term: int, status: int) returns (r: Response)
    requires ledger.Valid() && ledger.state == map[p.technology := p] && client != ""
    requires MinInt <= term <= MaxInt && MinInt <= status <= MaxInt
    modifies ledger
    ensures ledger.Valid() && r == Success("")
    ensures ledger.state == map[p.technology := WithClient(p, client, term, status)]
  {
    assert p.technology in ledger.state;
    var args := [p.technology, client, Itoa(term), Itoa(status)];
    AddClientArgs(args, p.technology, client, term, status);
    r := ledger.AddClient(args, NoFaults);
  }

  /** T1 once ClientX holds a contract: the same record, ClientX its only client, a new status. */
  lemma {:induction false} ContractedT1(p: Protect, term: int, status: int)
    requires p.(client := None, status := 1) == T1 && Clients(p).Keys <= {"ClientX"}
    ensures var q := WithClient(p, "ClientX", term, status);
      q.(client := None, status := 1) == T1 && Clients(q) == map["ClientX" := term] && q.status == status
  {
    var q := WithClient(p, "ClientX", term, status);
    assert Clients(q).Keys == {"ClientX"};
  }

  /** get_tech on T1, whatever its client section and status. */
  method ShowT1(ledger: Ledger, p: Protect, clientOrder: seq<string>, clientText: string) returns (view: Response)
    requires ledger.state == map["T1" := p]
    requires p.(client := None, status := 1) == T1
    requires IsOrder(clientOrder, Clients(p).Keys)
    requires Continue(true, PairEntries(Clients(p), clientOrder, Itoa)) == clientText
    ensures view == Success(T1Text(clientText, Itoa(p.status)))
  {
    RenderT1(p, clientOrder, clientText);
    view := ledger.GetTech(["T1"], NoFaults, ["a.txt"], clientOrder);
  }

  /** Registering T1 on an empty ledger; get_tech then shows its one file and no client. */
  method RegisterStep() returns (ledger: Ledger, view: Response)
    ensures fresh(ledger) && ledger.Valid() && ledger.state == map["T1" := T1]
    ensures view == Success(T1Text("", "1"))
  {
    ledger := new Ledger();
    RegisteredT1();
    var r := Register(ledger, T1Args);
    Spellings();
    view := ShowT1(ledger, T1, [], "");
  }

  /** add_client for ClientX on T1, then get_tech: ClientX is the one client listed. */
  method ContractStep(ledger: Ledger, p: Protect, term: int, status: int) returns (view: Response)
    requires ledger.Valid() && ledger.state == map["T1" := p]
    requires p.(client := None, status := 1) == T1 && Clients(p).Keys <= {"ClientX"}
    requires MinInt <= term <= MaxInt && MinInt <= status <= MaxInt
    modifies ledger
    ensures ledger.Valid() && ledger.state == map["T1" := WithClient(p, "ClientX", term, status)]
    ensures view == Success(T1Text(",ClientX:" + Itoa(term), Itoa(status)))
  {
    var r := Contract(ledger, p, "ClientX", term, status);
    var q := WithClient(p, "ClientX", term, status);
    ContractedT1(p, term, status);
    ClientSection(Clients(q), term);
    view := ShowT1(ledger, q, ["ClientX"], ",ClientX:" + Itoa(term));
  }

  /**
   * The registered record shows its one file and no client; after the first add_client
   * the client section lists ClientX with term 6 (after the content section's comma)
   * and status 4; adding ClientX again overwrites the term instead of listing it twice.
   */
  method AcmeScenario() returns (view1: Response, view2: Response, view3: Response)
    ensures view1 == Success(T1Text("", "1"))
    ensures view2 == Success(T1Text(",ClientX:6", "4"))
    ensures view3 == Success(T1Text(",ClientX:9", "4"))
  {
    var ledger;
    ledger, view1 := RegisterStep();
    Spellings();
    assert ",ClientX:" + Itoa(6) == ",ClientX:6" && ",ClientX:" + Itoa(9) == ",ClientX:9";
    view2 := ContractStep(ledger, T1, 6, 4);
    var p1 := WithClient(T1, "ClientX", 6, 4);
    ContractedT1(T1, 6, 4);
    view3 := ContractStep(ledger, p1, 9, 4);
  }
}
