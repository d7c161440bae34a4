/** The decisions the web handlers of run.py take on challenge ids and on
    the status row the database helper returns for (user, challenge). The
    row itself comes from a collaborator and is an input here. */
module Routes {
  import opened Wrappers
  import opened Text

  /** A status row as the database helper returns it: the phase text first,
      then (once deployed) two more fields, the last one the contract address. */
  type StatusRow = seq<string>

  /** The exceptions the handlers raise instead of answering. */
  datatype RouteError =
    | BadChallengeNumber(id: string)   // ValueError from `int(...)`
    | MissingField(index: nat)         // IndexError on the status row
    | UndefinedName(name: string)      // NameError in `update`

  const NotStarted := "not started"
  const Unfinished := "unfinished"
  const DoneWord := "done"

  /** The number of a challenge id: the integer before the first "_". */
  function ChallengeNumber(id: string): (r: Result<int, RouteError>)
    ensures r.Ok? <==> IsIntegerText(FirstField(id))
    ensures r.Ok? ==> ParseInt(FirstField(id)) == Ok(r.value)
    ensures r.Err? ==> r.error == BadChallengeNumber(id)
  {
    match ParseInt(FirstField(id))
    case Ok(n) => Ok(n)
    case Err(_) => Err(BadChallengeNumber(id))
  }

  /** An id built from a number, "_" and a name gives that number back. */
  lemma ChallengeNumberOfId(n: nat, name: string)
    ensures ChallengeNumber(Decimal(n) + "_" + name) == Ok(n)
  {
    var id := Decimal(n) + "_" + name;
    var f := FirstField(id);
    assert '_' !in Decimal(n);
    assert id[|Decimal(n)|] == '_';
    assert forall j :: 0 <= j < |Decimal(n)| ==> id[j] == Decimal(n)[j];
    assert f == Decimal(n);
    DecimalRoundTrip(n);
  }

  /** Leading zeros are accepted: "03_ERC20" is challenge 3. */
  lemma ChallengeNumberWithLeadingZero()
    ensures ChallengeNumber("03_ERC20") == Ok(3)
  {
    assert FirstField("03_ERC20") == "03" by {
      assert FirstField("_ERC20") == [];
    }
    assert DigitsValue("03") == 10 * DigitsValue("0") + 3;
  }

  /** A challenge shows as deployed exactly when its row has three fields. */
  predicate IsDeployed(row: StatusRow)
  {
    |row| == 3
  }

  datatype DeployReply = DeployForm | RedirectToView

  /** POST /deploy: the deploy form for a challenge not yet started,
      a redirect to the view page otherwise. */
  function Deploy(row: StatusRow): (r: Result<DeployReply, RouteError>)
    ensures row == [] <==> r == Err(MissingField(0))
    ensures r == Ok(DeployForm) <==> row != [] && ContainsIgnoringCase(row[0], NotStarted)
    ensures r == Ok(RedirectToView) <==> row != [] && !ContainsIgnoringCase(row[0], NotStarted)
  {
    if row == [] then Err(MissingField(0))
    else
      if ContainsWord(row[0], NotStarted) then Ok(DeployForm) else Ok(RedirectToView)
  }

  datatype ViewReply = NotStartedText | ViewPage(done: bool)

  /** The text GET /view answers for a challenge not yet started. */
  const NotStartedMessage := "Not started!"

  /** GET /view: "Not started!" for a challenge not yet started, otherwise
      the view page, flagged done when the phase mentions "done". */
  function View(row: StatusRow): (r: Result<ViewReply, RouteError>)
    ensures row == [] <==> r == Err(MissingField(0))
    ensures r == Ok(NotStartedText) <==> row != [] && ContainsIgnoringCase(row[0], NotStarted)
    ensures row != [] && !ContainsIgnoringCase(row[0], NotStarted) ==>
              r == Ok(ViewPage(ContainsIgnoringCase(row[0], DoneWord)))
  {
    if row == [] then Err(MissingField(0))
    else
      if ContainsWord(row[0], NotStarted) then Ok(NotStartedText)
      else Ok(ViewPage(ContainsWord(row[0], DoneWord)))
  }

  datatype UpdateReply = GradeForm | RedirectToDashboard

  /** GET /update. When no validator file exists for the challenge, the
      handler refers to the unbound name `contract` and fails; the row is
      then read at index 2 (failing for a row not yet deployed) before the
      phase decides between the grading page and the dashboard. */
  function Update(validatorFound: bool, row: StatusRow): (r: Result<UpdateReply, RouteError>)
    ensures !validatorFound <==> r == Err(UndefinedName("contract"))
    ensures validatorFound && |row| < 3 <==> r == Err(MissingField(2))
    ensures r == Ok(GradeForm) <==>
      validatorFound && |row| >= 3 && ContainsIgnoringCase(row[0], Unfinished)
    ensures r == Ok(RedirectToDashboard) <==>
      validatorFound && |row| >= 3 && !ContainsIgnoringCase(row[0], Unfinished)
  {
    if !validatorFound then Err(UndefinedName("contract"))
    else if |row| < 3 then Err(MissingField(2))
    else
      if ContainsWord(row[0], Unfinished) then Ok(GradeForm) else Ok(RedirectToDashboard)
  }

  /** What the dashboard shows for one challenge. */
  datatype Entry = Entry(number: int, status: StatusRow, deployed: bool)

  /** `e` is the entry of `id` when ids are numbered by `number`. */
  ghost predicate EntryFor(number: string -> Result<int, RouteError>, id: string, e: Entry, status: int -> StatusRow)
  {
    number(id) == Ok(e.number) && e.status == status(e.number) && e.deployed == IsDeployed(e.status)
  }

  /** `ids[i]` is the first id that `number` refuses. */
  ghost predicate FirstUnnumbered(number: string -> Result<int, RouteError>, ids: seq<string>, i: int)
  {
    0 <= i < |ids| && number(ids[i]).Err? &&
    forall j :: 0 <= j < i ==> number(ids[j]).Ok?
  }

  /** The dashboard loop, for a given way of numbering challenge ids. */
  method Tabulate(ids: seq<string>, number: string -> Result<int, RouteError>, status: int -> StatusRow)
    returns (r: Result<map<string, Entry>, RouteError>)
    ensures r.Ok? <==> forall i :: 0 <= i < |ids| ==> number(ids[i]).Ok?
    ensures r.Err? ==> exists i :: FirstUnnumbered(number, ids, i) && r.error == number(ids[i]).error
    ensures r.Ok? ==> r.value.Keys == set id | id in ids
    ensures r.Ok? ==> forall id :: id in r.value ==> EntryFor(number, id, r.value[id], status)
  {
    var challenges: map<string, Entry> := map[];
    var k := 0;
    while k < |ids|
      invariant 0 <= k <= |ids|
      invariant forall j :: 0 <= j < k ==> number(ids[j]).Ok?
      invariant challenges.Keys == set id | id in ids[..k]
      invariant forall id :: id in challenges ==> EntryFor(number, id, challenges[id], status)
    {
      var id := ids[k];
      var n := number(id);
      if n.Err? {
        assert FirstUnnumbered(number, ids, k);
        return Err(n.error);
      }
      var row := status(n.value);
      challenges := challenges[id := Entry(n.value, row, IsDeployed(row))];
      assert ids[..k + 1] == ids[..k] + [id];
      k := k + 1;
    }
    assert ids[..k] == ids;
    return Ok(challenges);
  }

  /** GET /dashboard: one entry per configured challenge id, numbered by
      the integer before its first "_"; `status` is the database lookup for
      the requesting user. The first id whose number does not parse aborts
      the page with that id's error. */
  method Dashboard(ids: seq<string>, status: int -> StatusRow)
    returns (r: Result<map<string, Entry>, RouteError>)
    ensures r.Ok? <==> forall i :: 0 <= i < |ids| ==> ChallengeNumber(ids[i]).Ok?
    ensures r.Err? ==> exists i :: FirstUnnumbered(ChallengeNumber, ids, i) && r.error == BadChallengeNumber(ids[i])
    ensures r.Ok? ==> r.value.Keys == set id | id in ids
    ensures r.Ok? ==> forall id :: id in r.value ==> EntryFor(ChallengeNumber, id, r.value[id], status)
  {
    r := Tabulate(ids, ChallengeNumber, status);
  }
}
