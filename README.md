# Technology-escrow chaincode (groot 1.2) in Dafny

This project models the Hyperledger Fabric chaincode that keeps a registry of
technology-escrow deposits. Each deposit is a `Protect` record stored under its
technology name. It holds the sort code, the company and its registration number,
the escrow term, a map from file name to file hash, a map from client to contract
term, the enrolment date and a caller-supplied status code.

The model covers the eight functions the chaincode dispatches:

- `init`.
- The four updaters:
  - `add_cont` registers a new technology.
  - `add_client` sets one client's contract term.
  - `change_term` replaces the term.
  - `add_content` sets one file's hash.
- The three queries:
  - `get_tech` renders one record as text.
  - `get_all_tech` renders a range scan as a JSON array.
  - `get_cert_verify` renders a key's history as a JSON array.

The world state is a class, `Chaincode.Ledger`, whose `state` field maps each name to
its record as it reads back from storage. The handlers are methods that update that
map in place, and every result is a `Shim.Response`.

The model keeps everything the handlers can be given:

- The ledger's read and write failures are a `Faults` parameter.
- Go's map iteration order is a key order supplied by the caller.
- The results of the range and history iterators are a list of steps, each an item or
  an error.

The modules follow the program's structure:

| module | contents |
|---|---|
| `Strconv` | Go's `strconv.Atoi`/`Itoa` on 64-bit `int`, with the round trip between them |
| `Strs` | `strings.Split`/`Join` on one character, with the round trip between them |
| `Record` | the record, the `omitempty` read-back, the zipped content map and the merge each updater applies |
| `Validation` | the arity, non-empty and numeric checks, and add_cont's argument parsing with its inverse |
| `Queries` | the buffer loops of the three queries, each proved against a text-building function |
| `Chaincode` | the ledger class, its handlers and `Invoke` |
| `Scenario` | a worked run: register T1, add ClientX twice, and read the record after each step |

The model follows the code, including these behaviours:

- `get_tech` does not write a JSON object with a comma between every field.
  - No comma separates `enroll_date` from `status`.
  - The file and client sections are quoted strings holding `key:value` pairs.
  - Both sections share one comma flag. So when the record has files and clients, the
    client section starts with a comma.
- The status code is stored as given, with no check on its value or its order.
- Errors are the source's own message strings, including the misspelt
  "Invaild Function Name".

## Model

| member | source | states |
|---|---|---|
| Strconv.ItoaAtoi | chaincode/hyperledger/groot_1.2/groot-chaincode.go:111-123 | every 64-bit integer written in decimal parses back to itself |
| Strconv.ItoaShape | chaincode/hyperledger/groot_1.2/groot-chaincode.go:412 | a decimal spelling is never empty, starts with '-' exactly for negative numbers and is all digits otherwise |
| Strconv.AtoiRejectsNonDigit | chaincode/hyperledger/groot_1.2/groot-chaincode.go:111-114 | any character other than a digit, except one leading sign, makes the numeric check fail |
| Strconv.AtoiRejectsOutOfRange | chaincode/hyperledger/groot_1.2/groot-chaincode.go:111-114 | a digit string whose value lies outside Go's 64-bit int fails the numeric check however it is spelt: with leading zeros, unsigned, with '+' or with '-' |
| Strs.Split | chaincode/hyperledger/groot_1.2/groot-chaincode.go:126-127 | splitting gives at least one piece and no piece contains the separator |
| Strs.JoinSplit | chaincode/hyperledger/groot_1.2/groot-chaincode.go:126-127 | joining the pieces of a split with the separator gives back the argument |
| Strs.SplitJoin | chaincode/hyperledger/groot_1.2/groot-chaincode.go:126-127 | splitting a comma-joined list of comma-free names gives back the list |
| Record.ReadBack | chaincode/hyperledger/groot_1.2/groot-chaincode.go:25 | a stored record reads back with every field kept, except that an empty client map reads back nil; the clients it lists are unchanged |
| Record.ReadBackIdempotent | chaincode/hyperledger/groot_1.2/groot-chaincode.go:25 | reading back again changes nothing, and a record without an empty client map is read back as it is |
| Record.ZipMapKeys | chaincode/hyperledger/groot_1.2/groot-chaincode.go:124-130 | the content map's files are exactly the names that have a hash at the same position; extra names or hashes are dropped |
| Record.ZipMapValues | chaincode/hyperledger/groot_1.2/groot-chaincode.go:124-130 | each file maps to the hash beside its last occurrence, so a later duplicate name overwrites an earlier one |
| Record.WithClientEffect | chaincode/hyperledger/groot_1.2/groot-chaincode.go:202-208 | add_client's merge (nil map created if needed) adds at most one client, sets its term, keeps every other client's term, replaces the status and changes nothing else |
| Record.WithClientTwice | chaincode/hyperledger/groot_1.2/groot-chaincode.go:207 | adding the same client twice equals adding it once with the later term: it is overwritten, not duplicated |
| Record.WithTermEffect | chaincode/hyperledger/groot_1.2/groot-chaincode.go:256-257 | change_term replaces term and status with whatever is given (no check that the term grows) and changes nothing else |
| Record.WithContentEffect | chaincode/hyperledger/groot_1.2/groot-chaincode.go:304-306 | add_content adds at most one file, sets its hash, keeps every other file's hash, replaces the status and changes nothing else |
| Record.WithContentTwice | chaincode/hyperledger/groot_1.2/groot-chaincode.go:304 | adding the same file twice equals adding it once with the later hash |
| Validation.FirstEmpty | chaincode/hyperledger/groot_1.2/groot-chaincode.go:81-107 | finds the first empty argument at or after a position, with all arguments before it non-empty; None exactly when none is empty |
| Validation.CheckArgs | chaincode/hyperledger/groot_1.2/groot-chaincode.go:75-107 | the checks pass exactly when the count is right and the checked positions are non-empty; a wrong count gives the arity message, and otherwise the first empty position's message |
| Validation.ParseAddCont | chaincode/hyperledger/groot_1.2/groot-chaincode.go:75-136 | add_cont's arguments parse exactly when there are nine, none is empty and sort, com_num, term and status are numeric; the key is the first argument |
| Validation.ParseUnparse | chaincode/hyperledger/groot_1.2/groot-chaincode.go:110-136 | parsing the arguments a caller sends for well-formed values (numbers in decimal, file lists comma-joined) gives those values back |
| Validation.NumericCheckedInOrder | chaincode/hyperledger/groot_1.2/groot-chaincode.go:111-136 | with nine non-empty arguments, the first non-numeric field among sort, com_num, term and status is the one reported, each with its own message |
| Validation.EmptyCheckedBeforeParse | chaincode/hyperledger/groot_1.2/groot-chaincode.go:81-107 | an empty argument is reported before any numeric check, and the message names the first empty position |
| Queries.ContinueFresh | chaincode/hyperledger/groot_1.2/groot-chaincode.go:433-441 | a comma-flag loop that starts with the flag clear writes exactly the comma-joined entries |
| Queries.SharedComma | chaincode/hyperledger/groot_1.2/groot-chaincode.go:433-456 | the file and client sections under one flag together are the comma-joined list of all entries |
| Queries.ContinueLeadingComma | chaincode/hyperledger/groot_1.2/groot-chaincode.go:448-451 | for entries that do not start with a comma: a section is non-empty exactly when it has entries, and it starts with a comma exactly when an entry was written before it |
| Queries.WritePairs | chaincode/hyperledger/groot_1.2/groot-chaincode.go:433-441 | the map loop appends each entry as key:value in iteration order, with a comma first whenever the flag is set; the flag ends set exactly when it was set or an entry was written |
| Queries.RenderProtect | chaincode/hyperledger/groot_1.2/groot-chaincode.go:402-469 | get_tech's buffer is the record's text: the fixed fields, the files and then the clients under one comma flag, then enroll_date and status |
| Queries.TechSections | chaincode/hyperledger/groot_1.2/groot-chaincode.go:433-457 | the two sections list every file once and every client once, as one comma-joined list |
| Queries.FirstFailureSpec | chaincode/hyperledger/groot_1.2/groot-chaincode.go:508-512 | the scan's error is the error of a failed Next() with only items before it, and there is none exactly when every Next() succeeded |
| Queries.ItemsInOrder | chaincode/hyperledger/groot_1.2/groot-chaincode.go:508-542 | without failures, the scan's items are the iterator's results one for one, in order |
| Queries.StepFailure | chaincode/hyperledger/groot_1.2/groot-chaincode.go:509-511 | a failed Next() after only successful ones ends the scan with that error |
| Queries.WriteArray | chaincode/hyperledger/groot_1.2/groot-chaincode.go:503-547 | the array loop gives the open error, else the first failed Next()'s error, else the JSON array of the items' texts with a comma before all but the first |
| Queries.GetAllTech | chaincode/hyperledger/groot_1.2/groot-chaincode.go:489-548 | get_all_tech returns the scan as an array of {"Key","Value"} entries in iterator order, or the open or Next() error |
| Queries.GetCertVerify | chaincode/hyperledger/groot_1.2/groot-chaincode.go:320-384 | get_cert_verify demands one argument, then returns the history as an array of {TxId, Value (null when deleted), Timestamp, IsDelete} entries, or the open or Next() error |
| Chaincode.NewProtectFields | chaincode/hyperledger/groot_1.2/groot-chaincode.go:124-148 | a newly registered record carries every parsed field, the zipped content map and no clients, and its client field reads back nil |
| Chaincode.ZipContent | chaincode/hyperledger/groot_1.2/groot-chaincode.go:124-130 | add_cont's loop over the two file lists builds the zipped content map |
| Chaincode.Ledger.AddCont | chaincode/hyperledger/groot_1.2/groot-chaincode.go:72-163 | each failure (arguments, failed probe, name already present, failed write) gives its message and leaves the state alone; success exactly when all pass, storing the new record under the name; every record stored before is kept |
| Chaincode.Ledger.AddClient | chaincode/hyperledger/groot_1.2/groot-chaincode.go:166-219 | the checks come in source order (count, non-empty, probe, then numeric term and status, then write), each with its message; success stores the record with the client merged in; every stored record is kept and extends its old version |
| Chaincode.Ledger.ChangeTerm | chaincode/hyperledger/groot_1.2/groot-chaincode.go:222-268 | the checks come in source order, each with its message; success stores the record with term and status replaced; every stored record is kept and extends its old version |
| Chaincode.Ledger.AddContent | chaincode/hyperledger/groot_1.2/groot-chaincode.go:271-317 | the checks come in source order, each with its message; success stores the record with the file's hash set and the status replaced; every stored record is kept and extends its old version |
| Chaincode.Ledger.GetTech | chaincode/hyperledger/groot_1.2/groot-chaincode.go:387-486 | one argument or the arity error; an absent record is "Could not find protect data"; otherwise the record's text |
| Chaincode.Ledger.Invoke | chaincode/hyperledger/groot_1.2/groot-chaincode.go:41-65 | init succeeds; each updater succeeds exactly when its own checks pass and stores its merge; the queries give their handler's text or its error (arity, open, first failed Next()); only the four updaters can change the state, only on success, and no record is ever deleted or loses a file or client; any other name is refused |
| Scenario.AcmeScenario | chaincode/hyperledger/groot_1.2/groot-chaincode.go:445-467 | after registering T1, get_tech shows its one file and no client; after add_client ClientX it shows ",ClientX:6" and status 4; after adding ClientX again it shows only ",ClientX:9" |

## Left out

- JSON encoding: records are stored as values. Only the `omitempty` effect on the client map is modelled, by `Record.ReadBack`. Because the ignored `json.Marshal`/`json.Unmarshal` errors cannot happen for well-typed records, they are not modelled.
- `defer resultsIterator.Close()` and all `fmt` logging: they have no effect on the result or the state.
- History timestamps: the chaincode formats the ledger's seconds and nanoseconds itself with `time.Unix(...).String()`, in the container's time zone. The model takes the formatted timestamp as an opaque string, because Go's time formatting is not modelled.
- `main`, `Init` and `shim.Start`: chaincode lifecycle, outside the handlers.
- Go's map iteration order: it is random, so `get_tech` takes the key order as a parameter, and every order of the keys is allowed.
- The range scan is a parameter because its values are the records' JSON text, which this model does not produce. Nothing ties its keys to `Ledger.state`, so no contract says that get_all_tech lists the stored records.
- The key history is a parameter because the ledger's version history is host state this model does not keep.
- add_cont parses the status after its content loop. The model parses it before, and the difference cannot be observed because the loop has no other effect.
- The `get_tech` loops write each key and value straight into the buffer. The model's loop passes one entry to a helper method; the text and order it writes are the same.
- Chaincode.Ledger.GetTech: a failed `GetState` is reported like an absent record, "Could not find protect data", because the source drops the read error and finds no bytes.
- Atomicity of a failed transaction: an `Error` response leaves the modelled state unchanged. This matches Fabric discarding a failed invocation's writes; the endorsement and commit protocol itself is not modelled.
- Strings are Unicode text. Go's arguments are byte strings, and `json.Marshal` rewrites invalid UTF-8 in any string field or map key to U+FFFD before storing; such byte strings, and the changed record they read back as, are not modelled.
- Earlier chaincode versions and the web application are not part of this model.
