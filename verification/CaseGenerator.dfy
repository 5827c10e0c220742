/** The golden-set generator (scripts/generate_evaluation_cases.py): a second, simpler
    eligibility checker, and the cases built with it. */
module CaseGenerator {
  import opened Wrappers
  import opened Clients
  import opened Catalog
  import Audit
  import Baseline

  const CASES_PER_TYPE: nat := 8
  const CLIENT_ID := "cod_cliente"

  /** One line of evaluation_cases.jsonl; `None` is a key the line does not have. */
  datatype Case = Case(
    caseId: Option<string>, kind: Option<string>, context: Option<Client>, forbiddenArm: Option<string>,
    perturbation: Option<seq<(string, seq<Value>)>>, expectedArm: Option<Value>)

  /** Python's int() on a text and str() on a value. */
  datatype Texts = Texts(ints: string -> Option<int>, show: Value -> string)

  /** int("") is a ValueError. */
  ghost predicate IntParser(ints: string -> Option<int>) {
    ints("") == None
  }

  /** int() of a number drops the fraction. */
  function Truncate(n: real): int {
    if n >= 0.0 then n.Floor else -((-n).Floor)
  }

  /** It rounds towards zero, on both sides. */
  lemma TruncateTowardsZero(n: real)
    ensures n >= 0.0 ==> 0 <= Truncate(n) && Truncate(n) as real <= n < Truncate(n) as real + 1.0
    ensures n < 0.0 ==> Truncate(n) <= 0 && Truncate(n) as real - 1.0 < n <= Truncate(n) as real
  {
  }

  function ToInt(v: Value, ints: string -> Option<int>): Option<int> {
    match v
    case Num(n) => Some(Truncate(n))
    case Text(s) => ints(s)
    case _ => None
  }

  // ---------------------------------------------------------------- _violates

  datatype Reason =
    | Below(field: string, floor: Value)
    | Above(field: string, ceiling: Value)
    | Differs(field: string, value: Value)

  function Differing(client: Client, field: string, expected: Value,
                     ints: string -> Option<int>): Option<Option<Reason>> {
    if field !in client then Some(None)
    else
      var a, b := ToInt(client[field], ints), ToInt(expected, ints);
      if a == None || b == None then None
      else if a != b then Some(Some(Differs(field, expected))) else Some(None)
  }

  /** One filter read by the generator: `None` is an exception, `Some(None)` no objection. */
  function Breach(client: Client, key: string, expected: Value, ints: string -> Option<int>): Option<Option<Reason>> {
    if EndsWith(key, "_min") then
      var field := Chop(key, 4);
      if field !in client then Some(None)
      else match Less(client[field], expected)
        case None => None
        case Some(below) => if below then Some(Some(Below(field, expected))) else Some(None)
    else if EndsWith(key, "_max") then
      var field := Chop(key, 4);
      if field !in client then Some(None)
      else match Less(expected, client[field])
        case None => None
        case Some(above) => if above then Some(Some(Above(field, expected))) else Some(None)
    else if EndsWith(key, "_atual") then Differing(client, Chop(key, 6), expected, ints)
    else Differing(client, key, expected, ints)
  }

  predicate Objects(r: Option<Option<Reason>>) {
    r.Some? && r.value.Some?
  }

  function Violates(client: Client, filters: Filters, ints: string -> Option<int>): Option<Option<Reason>> {
    if filters == [] then Some(None)
    else
      var first := Breach(client, filters[0].0, filters[0].1, ints);
      if first == Some(None) then Violates(client, filters[1..], ints) else first
  }

  lemma {:induction false} ViolatesFinds(client: Client, filters: Filters, ints: string -> Option<int>) returns (i: nat)
    requires Objects(Violates(client, filters, ints))
    ensures i < |filters| && Breach(client, filters[i].0, filters[i].1, ints) == Violates(client, filters, ints)
  {
    if Breach(client, filters[0].0, filters[0].1, ints) == Some(None) {
      i := ViolatesFinds(client, filters[1..], ints);
      i := i + 1;
    } else {
      i := 0;
    }
  }

  // ---------------------------------------------------------------- what the server sees of a case

  predicate Private(k: string) {
    k != "" && k[0] == '_'
  }

  /** The case context: keys starting with an underscore are dropped. */
  function ContextOf(client: Client): Client {
    map k | k in client && !Private(k) :: client[k]
  }

  /** The dictionary the server's filters read when it ranks the case. */
  function Seen(incomes: Option<seq<real>>, client: Client, parse: Parser): Option<Client> {
    Enrich(incomes, Audit.StripProtected(ContextOf(client)), parse)
  }

  /** The generator and the server read the same field for this filter, or the generator
      reads none. */
  predicate Visible(columns: set<string>, key: string) {
    if EndsWith(key, "_percentil_min") then Chop(key, 4) !in columns
    else if EndsWith(key, "_min") || EndsWith(key, "_max") then Open(columns, Chop(key, 4))
    else if EndsWith(key, "_atual") then Open(columns, Chop(key, 6))
    else key == INCOME_PERCENTILE ==> key !in columns || INCOME !in columns
  }

  predicate Open(columns: set<string>, field: string) {
    field in columns ==> !Private(field) && field !in Audit.PROTECTED_ATTRIBUTES
  }

  lemma SuffixesDiffer(key: string)
    ensures EndsWith(key, "_percentil_min") ==> EndsWith(key, "_min")
    ensures EndsWith(key, "_atual") ==> !EndsWith(key, "_min") && !EndsWith(key, "_max")
    ensures EndsWith(key, "_min") ==> !EndsWith(key, "_max")
  {
    LastOfSuffix(key, "_atual");
    LastOfSuffix(key, "_min");
    LastOfSuffix(key, "_max");
    if EndsWith(key, "_percentil_min") {
      assert key[|key| - 4..] == key[|key| - 14..][10..];
    }
  }

  lemma SeenFields(incomes: Option<seq<real>>, client: Client, parse: Parser, field: string)
    requires Seen(incomes, client, parse).Some? && field != INCOME_PERCENTILE
    ensures
      var seen := Seen(incomes, client, parse).value;
      && (field in seen <==> field in client && !Private(field) && field !in Audit.PROTECTED_ATTRIBUTES)
      && (field in seen ==> seen[field] == client[field])
  {
  }

  /** Whatever the generator objects to through a visible filter, the server rejects too. */
  lemma BreachRejects(incomes: Option<seq<real>>, client: Client, key: string, expected: Value, parse: Parser,
                      ints: string -> Option<int>)
    requires IntParser(ints) && Visible(client.Keys, key) && Objects(Breach(client, key, expected, ints))
    requires Seen(incomes, client, parse).Some?
    ensures Passes(Seen(incomes, client, parse).value, key, expected) != Some(true)
  {
    SuffixesDiffer(key);
    if EndsWith(key, "_min") || EndsWith(key, "_max") {
      SeenFields(incomes, client, parse, Chop(key, 4));
    } else if EndsWith(key, "_atual") {
      SeenFields(incomes, client, parse, Chop(key, 6));
    } else if key != INCOME_PERCENTILE {
      SeenFields(incomes, client, parse, key);
    }
  }

  /** The generator is sound for the server on a filter key, for every client with the given
      columns and every expected value. */
  ghost predicate SoundKey(incomes: Option<seq<real>>, columns: set<string>, key: string, parse: Parser,
                           ints: string -> Option<int>) {
    forall client: Client, expected: Value ::
      client.Keys == columns && Objects(Breach(client, key, expected, ints)) && Seen(incomes, client, parse).Some? ==>
        Passes(Seen(incomes, client, parse).value, key, expected) != Some(true)
  }

  /** A client that is zero everywhere but in one column. */
  function Only(columns: set<string>, field: string, v: real): Client {
    map k | k in columns :: if k == field then Num(v) else Num(0.0)
  }

  function SeenPercentile(incomes: Option<seq<real>>, columns: set<string>): real {
    if INCOME in columns then IncomePercentile(incomes, 0.0) else 0.0
  }

  lemma PercentileRange(incomes: Option<seq<real>>, v: real)
    ensures 0.0 <= IncomePercentile(incomes, v) <= 100.0
  {
    if incomes.Some? && incomes.value != [] {
      var pos := SearchSortedRight(incomes.value, v);
      RatioMonotone(pos, pos, |incomes.value|);
    }
  }

  lemma SeenOnly(incomes: Option<seq<real>>, columns: set<string>, field: string, v: real, parse: Parser)
    requires field != INCOME
    ensures
      var seen := Seen(incomes, Only(columns, field, v), parse);
      && seen.Some?
      && Get(seen.value, INCOME_PERCENTILE, Num(0.0)) == Num(SeenPercentile(incomes, columns))
      && (Private(field) || field in Audit.PROTECTED_ATTRIBUTES ==> field == INCOME_PERCENTILE || field !in seen.value)
      && 0.0 <= SeenPercentile(incomes, columns) <= 100.0
  {
    PercentileRange(incomes, 0.0);
    var c := Audit.StripProtected(ContextOf(Only(columns, field, v)));
    assert INCOME in columns <==> INCOME in c;
    assert INCOME in c ==> c[INCOME] == Num(0.0);
  }

  /** The generator objects, the server does not. */
  ghost predicate Disagree(incomes: Option<seq<real>>, client: Client, key: string, expected: Value, parse: Parser,
                           ints: string -> Option<int>) {
    && Objects(Breach(client, key, expected, ints)) && Seen(incomes, client, parse).Some?
    && Passes(Seen(incomes, client, parse).value, key, expected) == Some(true)
  }

  lemma PercentileIsNotIncome(key: string)
    requires EndsWith(key, "_percentil_min")
    ensures Chop(key, 4) != INCOME
  {
    var tail := key[|key| - 14..];
    assert tail[8] == 'i' && Chop(key, 4)[|key| - 6] == tail[8];
    assert INCOME[|INCOME| - 2] == 'r';
  }

  lemma HiddenFloor(incomes: Option<seq<real>>, columns: set<string>, key: string, parse: Parser,
                    ints: string -> Option<int>)
    requires EndsWith(key, "_min") && !Visible(columns, key)
    ensures Disagree(incomes, Only(columns, Chop(key, 4), -2.0), key, Num(-1.0), parse, ints)
  {
    SuffixesDiffer(key);
    var field := Chop(key, 4);
    if EndsWith(key, "_percentil_min") {
      PercentileIsNotIncome(key);
    }
    SeenOnly(incomes, columns, field, -2.0, parse);
    assert Only(columns, field, -2.0)[field] == Num(-2.0);
  }

  lemma HiddenCeiling(incomes: Option<seq<real>>, columns: set<string>, key: string, parse: Parser,
                      ints: string -> Option<int>)
    requires EndsWith(key, "_max") && !Visible(columns, key)
    ensures Disagree(incomes, Only(columns, Chop(key, 4), 2.0 * HUGE), key, Num(HUGE), parse, ints)
  {
    SuffixesDiffer(key);
    LastOfSuffix(key, "_percentil_min");
    var field := Chop(key, 4);
    SeenOnly(incomes, columns, field, 2.0 * HUGE, parse);
    assert Only(columns, field, 2.0 * HUGE)[field] == Num(2.0 * HUGE);
  }

  lemma TruncateNext(v: real)
    requires v >= 0.0
    ensures Truncate(v + 1.0) != Truncate(v)
  {
  }

  lemma HiddenFlag(incomes: Option<seq<real>>, columns: set<string>, key: string, v: real, parse: Parser,
                   ints: string -> Option<int>)
    requires EndsWith(key, "_atual") && !Visible(columns, key)
    requires v == if Chop(key, 6) == INCOME_PERCENTILE then SeenPercentile(incomes, columns) else 0.0
    ensures Disagree(incomes, Only(columns, Chop(key, 6), v + 1.0), key, Num(v), parse, ints)
  {
    SuffixesDiffer(key);
    LastOfSuffix(key, "_percentil_min");
    var field := Chop(key, 6);
    SeenOnly(incomes, columns, field, v + 1.0, parse);
    TruncateNext(v);
    assert Only(columns, field, v + 1.0)[field] == Num(v + 1.0);
  }

  lemma HiddenPercentile(incomes: Option<seq<real>>, columns: set<string>, parse: Parser, ints: string -> Option<int>)
    requires INCOME_PERCENTILE in columns && INCOME in columns
    ensures
      var p := SeenPercentile(incomes, columns);
      Disagree(incomes, Only(columns, INCOME_PERCENTILE, p + 1.0), INCOME_PERCENTILE, Num(p), parse, ints)
  {
    var p := SeenPercentile(incomes, columns);
    SuffixesDiffer(INCOME_PERCENTILE);
    LastOfSuffix(INCOME_PERCENTILE, "_atual");
    LastOfSuffix(INCOME_PERCENTILE, "_min");
    LastOfSuffix(INCOME_PERCENTILE, "_max");
    SeenOnly(incomes, columns, INCOME_PERCENTILE, p + 1.0, parse);
    TruncateNext(p);
    var client := Only(columns, INCOME_PERCENTILE, p + 1.0);
    assert client[INCOME_PERCENTILE] == Num(p + 1.0);
    assert INCOME in Audit.StripProtected(ContextOf(client));
  }

  /** Some client with these columns is objected to by the generator and not by the server. */
  ghost predicate Unsound(incomes: Option<seq<real>>, columns: set<string>, key: string, parse: Parser,
                          ints: string -> Option<int>) {
    exists client: Client, expected: Value ::
      client.Keys == columns && Disagree(incomes, client, key, expected, parse, ints)
  }

  lemma UnsoundBy(incomes: Option<seq<real>>, columns: set<string>, field: string, v: real, key: string,
                  expected: Value, parse: Parser, ints: string -> Option<int>)
    requires Disagree(incomes, Only(columns, field, v), key, expected, parse, ints)
    ensures Unsound(incomes, columns, key, parse, ints)
  {
    assert Only(columns, field, v).Keys == columns;
  }

  lemma HiddenIsUnsound(incomes: Option<seq<real>>, columns: set<string>, key: string, parse: Parser,
                        ints: string -> Option<int>)
    requires !Visible(columns, key)
    ensures Unsound(incomes, columns, key, parse, ints)
  {
    SuffixesDiffer(key);
    var p := SeenPercentile(incomes, columns);
    if EndsWith(key, "_min") {
      HiddenFloor(incomes, columns, key, parse, ints);
      UnsoundBy(incomes, columns, Chop(key, 4), -2.0, key, Num(-1.0), parse, ints);
    } else if EndsWith(key, "_max") {
      HiddenCeiling(incomes, columns, key, parse, ints);
      UnsoundBy(incomes, columns, Chop(key, 4), 2.0 * HUGE, key, Num(HUGE), parse, ints);
    } else if EndsWith(key, "_atual") {
      var v := if Chop(key, 6) == INCOME_PERCENTILE then p else 0.0;
      HiddenFlag(incomes, columns, key, v, parse, ints);
      UnsoundBy(incomes, columns, Chop(key, 6), v + 1.0, key, Num(v), parse, ints);
    } else {
      HiddenPercentile(incomes, columns, parse, ints);
      UnsoundBy(incomes, columns, key, p + 1.0, key, Num(p), parse, ints);
    }
  }

  /** For clients with the given columns the generator is sound on a filter key exactly when
      the key is visible: it fails for every percentile floor whose field the client carries,
      and for every bound or flag on an underscored or protected column. */
  lemma SoundExactly(incomes: Option<seq<real>>, columns: set<string>, key: string, parse: Parser,
                     ints: string -> Option<int>)
    requires IntParser(ints)
    ensures SoundKey(incomes, columns, key, parse, ints) <==> Visible(columns, key)
  {
    if Visible(columns, key) {
      forall client: Client, expected: Value
        | client.Keys == columns && Objects(Breach(client, key, expected, ints)) && Seen(incomes, client, parse).Some?
        ensures Passes(Seen(incomes, client, parse).value, key, expected) != Some(true)
      {
        BreachRejects(incomes, client, key, expected, parse, ints);
      }
    } else {
      HiddenIsUnsound(incomes, columns, key, parse, ints);
      var client: Client, expected: Value :|
        client.Keys == columns && Disagree(incomes, client, key, expected, parse, ints);
    }
  }

  predicate AllVisible(client: Client, filters: Filters) {
    forall i :: 0 <= i < |filters| ==> Visible(client.Keys, filters[i].0)
  }

  /** A reason from the generator is a refusal by the server. */
  lemma ViolationRejects(incomes: Option<seq<real>>, client: Client, filters: Filters, parse: Parser,
                         ints: string -> Option<int>)
    requires IntParser(ints) && AllVisible(client, filters) && Objects(Violates(client, filters, ints))
    requires Seen(incomes, client, parse).Some?
    ensures IsEligible(Seen(incomes, client, parse).value, filters) != Some(true)
  {
    var i := ViolatesFinds(client, filters, ints);
    BreachRejects(incomes, client, filters[i].0, filters[i].1, parse, ints);
    EligibleMeansAllPass(Seen(incomes, client, parse).value, filters);
  }

  // ---------------------------------------------------------------- when the two checkers agree

  /** The client field a filter makes the generator read. */
  function GeneratorField(key: string): string {
    if EndsWith(key, "_min") || EndsWith(key, "_max") then Chop(key, 4)
    else if EndsWith(key, "_atual") then Chop(key, 6)
    else key
  }

  /** What the server's arithmetic filters make of a field: a missing one is zero. */
  function ServerNumber(seen: Client, field: string): real {
    if field in seen && seen[field].Num? then seen[field].n else 0.0
  }

  /** Generator and server give the same answer to one filter. */
  ghost predicate Agree(incomes: Option<seq<real>>, client: Client, key: string, expected: Value, parse: Parser,
                        ints: string -> Option<int>)
    requires Seen(incomes, client, parse).Some?
  {
    var refused := Passes(Seen(incomes, client, parse).value, key, expected) != Some(true);
    Objects(Breach(client, key, expected, ints)) <==> refused
  }

  /** A percentile floor agrees when the server lets the client pass it; a floor when its field
      is there or a missing field, read as zero, meets it; a ceiling also needs the field not to
      be zero, which the server reads as missing and infinite; an equality needs whole numbers,
      or at least numbers that differ by more than their fractions. */
  predicate Alike(client: Client, seen: Client, key: string, e: real) {
    var field := GeneratorField(key);
    var v, s := ServerNumber(client, field), ServerNumber(seen, field);
    if EndsWith(key, "_percentil_min") then ServerNumber(seen, INCOME_PERCENTILE) >= e
    else if EndsWith(key, "_min") then field in client || s >= e
    else if EndsWith(key, "_max") then
      if field in client then v != 0.0 || e < 0.0 || e >= HUGE else (if s == 0.0 then HUGE else s) <= e
    else if EndsWith(key, "_atual") then
      if field in client then Truncate(v) == Truncate(e) ==> v == e else s == e
    else if field in client then
      if field in seen then Truncate(v) == Truncate(e) ==> v == e else Truncate(v) != Truncate(e)
    else field in seen && s == e
  }

  lemma SeenNumbers(incomes: Option<seq<real>>, client: Client, parse: Parser, field: string)
    requires Seen(incomes, client, parse).Some? && (field in client ==> client[field].Num?)
    ensures
      var seen := Seen(incomes, client, parse).value;
      && (field in seen ==> seen[field].Num?)
      && (INCOME_PERCENTILE in seen ==> seen[INCOME_PERCENTILE].Num?)
      && (field in client && field in seen && field != INCOME_PERCENTILE ==> seen[field] == client[field])
  {
    assert Private(INCOME_PERCENTILE);
  }

  lemma FieldOfSuffix(key: string)
    ensures EndsWith(key, "_min") || EndsWith(key, "_max") ==> GeneratorField(key) == Chop(key, 4)
    ensures EndsWith(key, "_atual") ==> GeneratorField(key) == Chop(key, 6)
  {
    SuffixesDiffer(key);
  }

  lemma AgreeOnBound(incomes: Option<seq<real>>, client: Client, key: string, e: real, parse: Parser,
                     ints: string -> Option<int>)
    requires Visible(client.Keys, key) && Seen(incomes, client, parse).Some?
          && (EndsWith(key, "_min") || EndsWith(key, "_max"))
    requires GeneratorField(key) in client ==> client[GeneratorField(key)].Num?
    ensures Agree(incomes, client, key, Num(e), parse, ints)
       <==> Alike(client, Seen(incomes, client, parse).value, key, e)
  {
    SuffixesDiffer(key);
    FieldOfSuffix(key);
    SeenNumbers(incomes, client, parse, GeneratorField(key));
    if GeneratorField(key) != INCOME_PERCENTILE {
      SeenFields(incomes, client, parse, GeneratorField(key));
    }
  }

  lemma AgreeOnFlag(incomes: Option<seq<real>>, client: Client, key: string, e: real, parse: Parser,
                    ints: string -> Option<int>)
    requires Visible(client.Keys, key) && Seen(incomes, client, parse).Some? && EndsWith(key, "_atual")
    requires GeneratorField(key) in client ==> client[GeneratorField(key)].Num?
    ensures Agree(incomes, client, key, Num(e), parse, ints)
       <==> Alike(client, Seen(incomes, client, parse).value, key, e)
  {
    SuffixesDiffer(key);
    FieldOfSuffix(key);
    SeenNumbers(incomes, client, parse, GeneratorField(key));
    if GeneratorField(key) != INCOME_PERCENTILE {
      SeenFields(incomes, client, parse, GeneratorField(key));
    }
  }

  lemma AgreeOnField(incomes: Option<seq<real>>, client: Client, key: string, e: real, parse: Parser,
                     ints: string -> Option<int>)
    requires Visible(client.Keys, key) && Seen(incomes, client, parse).Some?
    requires !EndsWith(key, "_min") && !EndsWith(key, "_max") && !EndsWith(key, "_atual")
    requires key in client ==> client[key].Num?
    ensures Agree(incomes, client, key, Num(e), parse, ints)
       <==> Alike(client, Seen(incomes, client, parse).value, key, e)
  {
    SuffixesDiffer(key);
    SeenNumbers(incomes, client, parse, key);
    if key != INCOME_PERCENTILE {
      SeenFields(incomes, client, parse, key);
    }
  }

  /** On a visible filter over numbers the generator and the server give the same answer, in both
      directions, exactly in the cases above. */
  lemma AgreeExactly(incomes: Option<seq<real>>, client: Client, key: string, e: real, parse: Parser,
                     ints: string -> Option<int>)
    requires Visible(client.Keys, key) && Seen(incomes, client, parse).Some?
    requires GeneratorField(key) in client ==> client[GeneratorField(key)].Num?
    ensures Agree(incomes, client, key, Num(e), parse, ints)
       <==> Alike(client, Seen(incomes, client, parse).value, key, e)
  {
    if EndsWith(key, "_min") || EndsWith(key, "_max") {
      AgreeOnBound(incomes, client, key, e, parse, ints);
    } else if EndsWith(key, "_atual") {
      AgreeOnFlag(incomes, client, key, e, parse, ints);
    } else {
      AgreeOnField(incomes, client, key, e, parse, ints);
    }
  }

  /** The common disagreement: a field that is zero under a ceiling. The generator compares it,
      the server takes it for missing and refuses. */
  lemma ZeroUnderCeiling(incomes: Option<seq<real>>, client: Client, key: string, e: real, parse: Parser,
                         ints: string -> Option<int>)
    requires Visible(client.Keys, key) && Seen(incomes, client, parse).Some? && EndsWith(key, "_max")
    requires GeneratorField(key) in client && client[GeneratorField(key)] == Num(0.0) && 0.0 <= e < HUGE
    ensures Breach(client, key, Num(e), ints) == Some(None)
    ensures Passes(Seen(incomes, client, parse).value, key, Num(e)) == Some(false)
  {
    SuffixesDiffer(key);
    FieldOfSuffix(key);
    LastOfSuffix(key, "_percentil_min");
    SeenFields(incomes, client, parse, GeneratorField(key));
  }

  /** A filter over numbers that both checkers read alike. */
  ghost predicate AlikeFilter(incomes: Option<seq<real>>, client: Client, key: string, expected: Value, parse: Parser)
    requires Seen(incomes, client, parse).Some?
  {
    && Visible(client.Keys, key) && expected.Num?
    && (GeneratorField(key) in client ==> client[GeneratorField(key)].Num?)
    && Alike(client, Seen(incomes, client, parse).value, key, expected.n)
  }

  lemma NumericBreach(client: Client, key: string, e: real, ints: string -> Option<int>)
    requires GeneratorField(key) in client ==> client[GeneratorField(key)].Num?
    ensures Breach(client, key, Num(e), ints).Some?
  {
    FieldOfSuffix(key);
    SuffixesDiffer(key);
  }

  lemma {:induction false} SilentMeansNoBreach(client: Client, filters: Filters, ints: string -> Option<int>)
    requires forall i :: 0 <= i < |filters| ==> Breach(client, filters[i].0, filters[i].1, ints).Some?
    ensures Objects(Violates(client, filters, ints))
       <==> exists i :: 0 <= i < |filters| && Objects(Breach(client, filters[i].0, filters[i].1, ints))
  {
    if Objects(Violates(client, filters, ints)) {
      var i := ViolatesFinds(client, filters, ints);
    } else if filters != [] {
      forall i | 0 <= i < |filters[1..]| ensures Breach(client, filters[1..][i].0, filters[1..][i].1, ints).Some? {
        assert filters[1..][i] == filters[i + 1];
      }
      SilentMeansNoBreach(client, filters[1..], ints);
      forall i | 0 < i < |filters| ensures !Objects(Breach(client, filters[i].0, filters[i].1, ints)) {
        assert filters[i] == filters[1..][i - 1];
      }
    }
  }

  /** Over filters that are all read alike the simple checker is the server's: it gives a reason
      exactly when the arm is not eligible. */
  lemma CheckersAgree(incomes: Option<seq<real>>, client: Client, filters: Filters, parse: Parser,
                      ints: string -> Option<int>)
    requires Seen(incomes, client, parse).Some?
    requires forall i :: 0 <= i < |filters| ==> AlikeFilter(incomes, client, filters[i].0, filters[i].1, parse)
    ensures Objects(Violates(client, filters, ints))
       <==> IsEligible(Seen(incomes, client, parse).value, filters) != Some(true)
  {
    var seen := Seen(incomes, client, parse).value;
    forall i | 0 <= i < |filters|
      ensures Breach(client, filters[i].0, filters[i].1, ints).Some?
      ensures Objects(Breach(client, filters[i].0, filters[i].1, ints))
         <==> Passes(seen, filters[i].0, filters[i].1) != Some(true)
    {
      assert AlikeFilter(incomes, client, filters[i].0, filters[i].1, parse);
      AgreeExactly(incomes, client, filters[i].0, filters[i].1.n, parse, ints);
      NumericBreach(client, filters[i].0, filters[i].1.n, ints);
    }
    SilentMeansNoBreach(client, filters, ints);
    EligibleMeansAllPass(seen, filters);
  }

  // ---------------------------------------------------------------- the shipped data

  /** The columns of a loaded client. */
  const COLUMNS: seq<string> := [
    "idade", "renda_estimada_anual_brl", "tempo_relacionamento_meses", "ind_ativo", "possui_conta_corrente",
    "possui_cartao_credito", "possui_conta_investimento", "possui_fundo_investimento", "possui_financiamento_imovel",
    "possui_emprestimo_pessoal", "possui_previdencia_privada", "segmento", "segmentos_sinteticos", "cod_cliente",
    "_sexo"]

  /** The filter keys of offer_catalog.json. */
  const SHIPPED_KEYS: seq<string> := [
    "ind_ativo", "possui_emprestimo_pessoal_atual", "tempo_relacionamento_meses_min", "possui_cartao_credito_atual",
    "idade_min", "possui_financiamento_imovel_atual", "renda_percentil_min", "idade_max",
    "possui_cdb_curto_prazo_atual", "possui_cdb_medio_prazo_atual", "possui_previdencia_privada_atual",
    "possui_fundo_investimento_atual"]

  lemma PercentileTail(c: string)
    ensures EndsWith(c, "_percentil") ==> |c| >= 2 && c[|c| - 2] == 'i'
  {
    if EndsWith(c, "_percentil") {
      assert c[|c| - 10..][8] == "_percentil"[8];
    }
  }

  lemma OrdinaryKeyVisible(columns: set<string>, key: string)
    requires key != "" && !Private(key) && forall c :: c in Audit.PROTECTED_ATTRIBUTES ==> c !in columns
    requires forall c :: c in columns ==> !EndsWith(c, "_percentil")
    ensures Visible(columns, key)
  {
    if EndsWith(key, "_percentil_min") {
      assert key[|key| - 14..][..10] == "_percentil";
      assert Chop(key, 4)[|key| - 14..] == key[|key| - 14..][..10];
    }
  }

  /** The shipped catalogue is safe for the shipped columns: every filter key is visible. */
  lemma ShippedKeysVisible(columns: set<string>, key: string)
    requires columns == (set c | c in COLUMNS) && key in SHIPPED_KEYS
    ensures Visible(columns, key)
  {
    forall c | c in columns ensures !EndsWith(c, "_percentil") && c != "sexo" {
      PercentileTail(c);
    }
    OrdinaryKeyVisible(columns, key);
  }

  // ---------------------------------------------------------------- the cases

  function EdgeCase(client: Client, armId: string, show: Value -> string): Option<Case> {
    if CLIENT_ID !in client then None
    else Some(Case(Some("EDGE-" + show(client[CLIENT_ID]) + "-" + armId), Some("edge"), Some(ContextOf(client)),
                   Some(armId), None, Some(Null)))
  }

  function AdversarialCase(client: Client, show: Value -> string): Option<Case> {
    if CLIENT_ID !in client then None
    else Some(Case(Some("ADV-" + show(client[CLIENT_ID]) + "-sexo"), Some("adversarial"), Some(ContextOf(client)),
                   None, Some([("sexo", [Text("M"), Text("F")])]), Some(Null)))
  }

  /** The informational case: the generator's guess at the baseline's top arm. */
  function TypicalCase(client: Client, armId: string, show: Value -> string): Option<Case> {
    if CLIENT_ID !in client then None
    else Some(Case(Some("TYP-" + show(client[CLIENT_ID])), Some("typical"), Some(ContextOf(client)),
                   None, None, Some(Text(armId))))
  }

  /** The offers of one category, in catalogue order. */
  function OfCategory(offers: seq<Offer>, category: string): seq<Offer> {
    if offers == [] then []
    else
      var k := |offers| - 1;
      OfCategory(offers[..k], category) + if offers[k].category == category then [offers[k]] else []
  }

  /** The offers the generator has no objection to; `None` when one of them raises. */
  function Candidates(client: Client, offers: seq<Offer>, ints: string -> Option<int>): Option<seq<Offer>> {
    if offers == [] then Some([])
    else
      var k := |offers| - 1;
      var earlier, reason := Candidates(client, offers[..k], ints), Violates(client, offers[k].filters, ints);
      if earlier == None || reason == None then None
      else Some(earlier.value + if reason.value == None then [offers[k]] else [])
  }

  /** The candidates in the client's target category. */
  function TargetCandidates(client: Client, offers: seq<Offer>, parse: Parser,
                            ints: string -> Option<int>): Option<seq<Offer>> {
    match Audit.SegmentList(client, [])
    case None => None
    case Some(segments) =>
      match Baseline.TargetCategory(client, segments, parse)
      case None => None
      case Some(target) => Candidates(client, OfCategory(offers, target), ints)
  }

  /** The client's typical case, `Some(None)` when it has no candidate. */
  function TypicalOf(client: Client, offers: seq<Offer>, parse: Parser, texts: Texts): Option<Option<Case>> {
    match TargetCandidates(client, offers, parse, texts.ints)
    case None => None
    case Some(candidates) =>
      if candidates == [] then Some(None)
      else
        var c := TypicalCase(client, candidates[0].armId, texts.show);
        if c == None then None else Some(c)
  }

  function TypicalsOf(clients: seq<Client>, offers: seq<Offer>, parse: Parser, texts: Texts)
    : seq<Option<Option<Case>>>
  {
    seq(|clients|, i requires 0 <= i < |clients| => TypicalOf(clients[i], offers, parse, texts))
  }

  /** The cases found, in order, until `room` of them are there; an exception before that is final. */
  function Collected(found: seq<Option<Option<Case>>>, room: nat): Option<seq<Case>> {
    if found == [] || room == 0 then Some([])
    else match found[0]
      case None => None
      case Some(None) => Collected(found[1..], room)
      case Some(Some(c)) => Prepend([c], Collected(found[1..], room - 1))
  }

  function TypicalCasesOf(clients: seq<Client>, offers: seq<Offer>, parse: Parser, texts: Texts): Option<seq<Case>> {
    Collected(TypicalsOf(clients, offers, parse, texts), CASES_PER_TYPE)
  }

  /** The first offer the generator objects to for this client. */
  function FirstForbidden(client: Client, offers: seq<Offer>, ints: string -> Option<int>): Option<Option<Offer>> {
    if offers == [] then Some(None)
    else match Violates(client, offers[0].filters, ints)
      case None => None
      case Some(None) => FirstForbidden(client, offers[1..], ints)
      case Some(Some(_)) => Some(Some(offers[0]))
  }

  /** At most one case a client, until `room` cases are there. */
  function EdgeCasesOf(clients: seq<Client>, offers: seq<Offer>, room: nat, texts: Texts): Option<seq<Case>> {
    if clients == [] || room == 0 then Some([])
    else match FirstForbidden(clients[0], offers, texts.ints)
      case None => None
      case Some(None) => EdgeCasesOf(clients[1..], offers, room, texts)
      case Some(Some(o)) =>
        var first := EdgeCase(clients[0], o.armId, texts.show);
        if first == None then None else Prepend([first.value], EdgeCasesOf(clients[1..], offers, room - 1, texts))
  }

  function Prepend(cases: seq<Case>, rest: Option<seq<Case>>): Option<seq<Case>> {
    if rest == None then None else Some(cases + rest.value)
  }

  method FindForbidden(client: Client, offers: seq<Offer>,
                       ints: string -> Option<int>) returns (r: Option<Option<Offer>>)
    ensures r == FirstForbidden(client, offers, ints)
  {
    for i := 0 to |offers|
      invariant FirstForbidden(client, offers, ints) == FirstForbidden(client, offers[i..], ints)
    {
      assert offers[i..][1..] == offers[i + 1..];
      var reason := Violates(client, offers[i].filters, ints);
      if reason == None {
        return None;
      }
      if reason.value.Some? {
        return Some(Some(offers[i]));
      }
    }
    return Some(None);
  }

  lemma PrependTwice(cases: seq<Case>, c: Case, rest: Option<seq<Case>>)
    ensures Prepend(cases, Prepend([c], rest)) == Prepend(cases + [c], rest)
  {
    if rest.Some? {
      assert cases + ([c] + rest.value) == cases + [c] + rest.value;
    }
  }

  lemma PrependNothing(rest: Option<seq<Case>>)
    ensures Prepend([], rest) == rest
  {
    if rest.Some? {
      assert [] + rest.value == rest.value;
    }
  }

  lemma PrependDone(cases: seq<Case>)
    ensures Prepend(cases, Some([])) == Some(cases)
  {
    assert cases + [] == cases;
  }

  method EdgeCases(clients: seq<Client>, offers: seq<Offer>, texts: Texts) returns (r: Option<seq<Case>>)
    ensures r == EdgeCasesOf(clients, offers, CASES_PER_TYPE, texts)
  {
    var cases: seq<Case> := [];
    assert clients[0..] == clients;
    PrependNothing(EdgeCasesOf(clients, offers, CASES_PER_TYPE, texts));
    for i := 0 to |clients|
      invariant |cases| < CASES_PER_TYPE
      invariant EdgeCasesOf(clients, offers, CASES_PER_TYPE, texts)
             == Prepend(cases, EdgeCasesOf(clients[i..], offers, CASES_PER_TYPE - |cases|, texts))
    {
      assert clients[i..][1..] == clients[i + 1..];
      var found := FindForbidden(clients[i], offers, texts.ints);
      if found == None {
        return None;
      }
      if found.value.Some? {
        var edge := EdgeCase(clients[i], found.value.value.armId, texts.show);
        if edge == None {
          return None;
        }
        PrependTwice(cases, edge.value, EdgeCasesOf(clients[i + 1..], offers, CASES_PER_TYPE - |cases| - 1, texts));
        cases := cases + [edge.value];
      }
      if |cases| >= CASES_PER_TYPE {
        PrependDone(cases);
        return Some(cases);
      }
    }
    PrependDone(cases);
    return Some(cases);
  }

  /** One adversarial case for each of the first eight clients, in order. */
  ghost predicate AreAdversarial(cases: seq<Case>, clients: seq<Client>, show: Value -> string) {
    && |cases| == (if |clients| < CASES_PER_TYPE then |clients| else CASES_PER_TYPE)
    && forall i :: 0 <= i < |cases| ==> AdversarialCase(clients[i], show) == Some(cases[i])
  }

  ghost predicate Grouped(groups: map<string, seq<Offer>>, offers: seq<Offer>) {
    forall category :: (if category in groups then groups[category] else []) == OfCategory(offers, category)
  }

  method GroupByCategory(offers: seq<Offer>) returns (groups: map<string, seq<Offer>>)
    ensures Grouped(groups, offers)
  {
    groups := map[];
    for k := 0 to |offers|
      invariant Grouped(groups, offers[..k])
    {
      assert offers[..k + 1][..k] == offers[..k];
      var category := offers[k].category;
      groups := groups[category := (if category in groups then groups[category] else []) + [offers[k]]];
    }
    assert offers[..|offers|] == offers;
  }

  method TypicalOn(groups: map<string, seq<Offer>>, client: Client, ghost offers: seq<Offer>, parse: Parser,
                   texts: Texts)
    returns (r: Option<Option<Case>>)
    requires Grouped(groups, offers)
    ensures r == TypicalOf(client, offers, parse, texts)
  {
    var segments := Audit.SegmentList(client, []);
    if segments == None {
      return None;
    }
    var target := Baseline.TargetCategory(client, segments.value, parse);
    if target == None {
      return None;
    }
    var candidates := Candidates(client, if target.value in groups then groups[target.value] else [], texts.ints);
    if candidates == None {
      return None;
    }
    if candidates.value == [] {
      return Some(None);
    }
    var c := TypicalCase(client, candidates.value[0].armId, texts.show);
    return if c == None then None else Some(c);
  }

  /** What is still to be collected once `cases` are there and entry i is next. */
  function Remaining(found: seq<Option<Option<Case>>>, i: nat, cases: seq<Case>): Option<seq<Case>>
    requires i <= |found| && |cases| <= CASES_PER_TYPE
  {
    Prepend(cases, Collected(found[i..], CASES_PER_TYPE - |cases|))
  }

  lemma RemainingStep(found: seq<Option<Option<Case>>>, i: nat, cases: seq<Case>)
    requires i < |found| && |cases| < CASES_PER_TYPE
    ensures found[i] == None ==> Remaining(found, i, cases) == None
    ensures found[i] == Some(None) ==> Remaining(found, i, cases) == Remaining(found, i + 1, cases)
    ensures found[i].Some? && found[i].value.Some? ==>
              Remaining(found, i, cases) == Remaining(found, i + 1, cases + [found[i].value.value])
  {
    assert found[i..][0] == found[i] && found[i..][1..] == found[i + 1..];
    if found[i].Some? && found[i].value.Some? {
      PrependTwice(cases, found[i].value.value, Collected(found[i + 1..], CASES_PER_TYPE - |cases| - 1));
    }
  }

  lemma RemainingEnd(found: seq<Option<Option<Case>>>, i: nat, cases: seq<Case>)
    requires i <= |found| && |cases| <= CASES_PER_TYPE && (i == |found| || |cases| == CASES_PER_TYPE)
    ensures Remaining(found, i, cases) == Some(cases)
  {
    PrependDone(cases);
  }

  lemma RemainingStart(found: seq<Option<Option<Case>>>)
    ensures Remaining(found, 0, []) == Collected(found, CASES_PER_TYPE)
  {
    assert found[0..] == found;
    PrependNothing(Collected(found, CASES_PER_TYPE));
  }

  method TypicalCases(clients: seq<Client>, offers: seq<Offer>, parse: Parser, texts: Texts)
    returns (r: Option<seq<Case>>)
    ensures r == TypicalCasesOf(clients, offers, parse, texts)
  {
    var groups := GroupByCategory(offers);
    ghost var found := TypicalsOf(clients, offers, parse, texts);
    var cases: seq<Case> := [];
    RemainingStart(found);
    for i := 0 to |clients|
      invariant |cases| < CASES_PER_TYPE && Remaining(found, i, cases) == Collected(found, CASES_PER_TYPE)
    {
      RemainingStep(found, i, cases);
      var typical := TypicalOn(groups, clients[i], offers, parse, texts);
      if typical == None {
        return None;
      }
      if typical.value.Some? {
        cases := cases + [typical.value.value];
        if |cases| >= CASES_PER_TYPE {
          RemainingEnd(found, i + 1, cases);
          return Some(cases);
        }
      }
    }
    RemainingEnd(found, |clients|, cases);
    return Some(cases);
  }

  method AdversarialCases(clients: seq<Client>, show: Value -> string) returns (r: Option<seq<Case>>)
    ensures r.Some? ==> AreAdversarial(r.value, clients, show)
    ensures r == None <==> exists i :: 0 <= i < |clients| && i < CASES_PER_TYPE && CLIENT_ID !in clients[i]
  {
    var cases: seq<Case> := [];
    var n := if |clients| < CASES_PER_TYPE then |clients| else CASES_PER_TYPE;
    for i := 0 to n
      invariant |cases| == i
      invariant forall k :: 0 <= k < i ==> AdversarialCase(clients[k], show) == Some(cases[k])
    {
      var next := AdversarialCase(clients[i], show);
      if next == None {
        return None;
      }
      cases := cases + [next.value];
    }
    return Some(cases);
  }

  function Refusable(clients: seq<Client>, offers: seq<Offer>, ints: string -> Option<int>): nat {
    if clients == [] then 0
    else
      var found := FirstForbidden(clients[0], offers, ints);
      Refusable(clients[1..], offers, ints) + if found in {None, Some(None)} then 0 else 1
  }

  /** The case was built from this client and an offer the generator objects to. */
  ghost predicate BuiltFrom(c: Case, client: Client, offers: seq<Offer>, texts: Texts) {
    exists j :: 0 <= j < |offers| && Objects(Violates(client, offers[j].filters, texts.ints))
             && EdgeCase(client, offers[j].armId, texts.show) == Some(c)
  }

  lemma {:induction false} ForbiddenIsViolated(client: Client, offers: seq<Offer>,
                                               ints: string -> Option<int>) returns (j: nat)
    requires FirstForbidden(client, offers, ints).Some? && FirstForbidden(client, offers, ints).value.Some?
    ensures j < |offers| && offers[j] == FirstForbidden(client, offers, ints).value.value
    ensures Objects(Violates(client, offers[j].filters, ints))
    ensures forall k :: 0 <= k < j ==> Violates(client, offers[k].filters, ints) == Some(None)
  {
    j := 0;
    if Violates(client, offers[0].filters, ints) == Some(None) {
      j := ForbiddenIsViolated(client, offers[1..], ints);
      forall k | 0 < k < j + 1 ensures Violates(client, offers[k].filters, ints) == Some(None) {
        assert offers[k] == offers[1..][k - 1];
      }
      j := j + 1;
    }
  }

  ghost predicate BuiltFromSome(c: Case, clients: seq<Client>, offers: seq<Offer>, texts: Texts) {
    exists client :: client in clients && BuiltFrom(c, client, offers, texts)
  }

  lemma BuiltFromLater(c: Case, clients: seq<Client>, offers: seq<Offer>, texts: Texts)
    requires clients != []
    ensures BuiltFrom(c, clients[0], offers, texts) || BuiltFromSome(c, clients[1..], offers, texts) ==>
              BuiltFromSome(c, clients, offers, texts)
  {
    assert clients[0] in clients && forall client :: client in clients[1..] ==> client in clients;
  }

  /** One case for each of the first eight clients the generator can refuse something to, each
      naming a violated offer of that client. */
  lemma {:induction false} EdgeCasesSound(clients: seq<Client>, offers: seq<Offer>, room: nat, texts: Texts)
    requires EdgeCasesOf(clients, offers, room, texts).Some?
    ensures
      var cases := EdgeCasesOf(clients, offers, room, texts).value;
      var n := Refusable(clients, offers, texts.ints);
      && |cases| == (if n < room then n else room)
      && forall i :: 0 <= i < |cases| ==> BuiltFromSome(cases[i], clients, offers, texts)
  {
    if clients != [] && room > 0 {
      var cases := EdgeCasesOf(clients, offers, room, texts).value;
      var found := FirstForbidden(clients[0], offers, texts.ints).value;
      var left := if found.Some? then room - 1 else room;
      EdgeCasesSound(clients[1..], offers, left, texts);
      var rest := EdgeCasesOf(clients[1..], offers, left, texts).value;
      if found.Some? {
        var j := ForbiddenIsViolated(clients[0], offers, texts.ints);
        assert BuiltFrom(cases[0], clients[0], offers, texts);
        assert cases[1..] == rest;
      } else {
        assert cases == rest;
      }
      forall i | 0 <= i < |cases| ensures BuiltFromSome(cases[i], clients, offers, texts) {
        BuiltFromLater(cases[i], clients, offers, texts);
        assert found.Some? && i > 0 ==> cases[i] == rest[i - 1];
      }
    }
  }

  // ---------------------------------------------------------------- what a typical case expects

  /** Offer j is the generator's choice: of the category, without an objection, and every earlier
      offer of the category has one. */
  ghost predicate FirstCandidate(client: Client, offers: seq<Offer>, category: string, j: nat,
                                 ints: string -> Option<int>) {
    && j < |offers| && offers[j].category == category && !Objects(Violates(client, offers[j].filters, ints))
    && AllObjected(client, offers, category, j, ints)
  }

  ghost predicate AllObjected(client: Client, offers: seq<Offer>, category: string, n: nat, ints: string -> Option<int>)
    requires n <= |offers|
  {
    forall i :: 0 <= i < n && offers[i].category == category ==> Objects(Violates(client, offers[i].filters, ints))
  }

  lemma ObjectedPrefix(client: Client, offers: seq<Offer>, category: string, k: nat, n: nat,
                       ints: string -> Option<int>)
    requires n <= k <= |offers|
    ensures AllObjected(client, offers[..k], category, n, ints) <==> AllObjected(client, offers, category, n, ints)
  {
    assert forall i :: 0 <= i < n ==> offers[..k][i] == offers[i];
  }

  lemma CategoryAppend(offers: seq<Offer>, category: string)
    requires offers != []
    ensures
      var k := |offers| - 1;
      OfCategory(offers, category)
      == if offers[k].category == category then OfCategory(offers[..k], category) + [offers[k]]
         else OfCategory(offers[..k], category)
  {
  }

  lemma CandidatesAppend(client: Client, offers: seq<Offer>, o: Offer, ints: string -> Option<int>)
    requires Candidates(client, offers + [o], ints).Some?
    ensures Candidates(client, offers, ints).Some? && Violates(client, o.filters, ints).Some?
    ensures Candidates(client, offers + [o], ints).value
         == Candidates(client, offers, ints).value + if Objects(Violates(client, o.filters, ints)) then [] else [o]
  {
    assert (offers + [o])[..|offers|] == offers;
  }

  /** An offer of the category to which the generator does not object. */
  ghost predicate Candidate(client: Client, o: Offer, category: string, ints: string -> Option<int>) {
    o.category == category && !Objects(Violates(client, o.filters, ints))
  }

  /** The candidates of a category are those of the offers before the last, and the last one if it is
      of the category and without an objection. */
  lemma CandidatesStep(client: Client, offers: seq<Offer>, category: string, ints: string -> Option<int>)
    requires offers != [] && Candidates(client, OfCategory(offers, category), ints).Some?
    ensures
      var k := |offers| - 1;
      var earlier := Candidates(client, OfCategory(offers[..k], category), ints);
      && earlier.Some?
      && Candidates(client, OfCategory(offers, category), ints).value
         == earlier.value + if Candidate(client, offers[k], category, ints) then [offers[k]] else []
  {
    var k := |offers| - 1;
    CategoryAppend(offers, category);
    if offers[k].category == category {
      CandidatesAppend(client, OfCategory(offers[..k], category), offers[k], ints);
    }
  }

  lemma {:induction false} CandidatesFirst(client: Client, offers: seq<Offer>, category: string,
                                           ints: string -> Option<int>)
    returns (j: nat)
    requires Candidates(client, OfCategory(offers, category), ints).Some?
    ensures
      var candidates := Candidates(client, OfCategory(offers, category), ints).value;
      if candidates != [] then FirstCandidate(client, offers, category, j, ints) && candidates[0] == offers[j]
      else AllObjected(client, offers, category, |offers|, ints)
  {
    j := 0;
    if offers != [] {
      var k := |offers| - 1;
      CandidatesStep(client, offers, category, ints);
      j := CandidatesFirst(client, offers[..k], category, ints);
      if Candidates(client, OfCategory(offers[..k], category), ints).value == [] {
        ObjectedPrefix(client, offers, category, k, k, ints);
        j := k;
      } else {
        ObjectedPrefix(client, offers, category, k, j, ints);
      }
    }
  }

  /** The case was built from this client, and expects the generator's choice. */
  ghost predicate TypicalFrom(c: Case, client: Client, offers: seq<Offer>, j: nat, parse: Parser, texts: Texts) {
    var segments := Audit.SegmentList(client, []);
    && segments.Some? && Baseline.TargetCategory(client, segments.value, parse).Some?
    && FirstCandidate(client, offers, Baseline.TargetCategory(client, segments.value, parse).value, j, texts.ints)
    && TypicalCase(client, offers[j].armId, texts.show) == Some(c)
  }

  ghost predicate TypicalFromSome(c: Case, clients: seq<Client>, offers: seq<Offer>, parse: Parser, texts: Texts) {
    exists client, j: nat :: client in clients && TypicalFrom(c, client, offers, j, parse, texts)
  }

  lemma {:induction false} CollectedFrom(found: seq<Option<Option<Case>>>, room: nat)
    requires Collected(found, room).Some?
    ensures |Collected(found, room).value| <= room
    ensures forall c :: c in Collected(found, room).value ==> Some(Some(c)) in found
  {
    if found != [] && room > 0 {
      var left := if found[0].value == None then room else room - 1;
      CollectedFrom(found[1..], left);
      assert forall f :: f in found[1..] ==> f in found;
    }
  }

  lemma TypicalOfFrom(client: Client, offers: seq<Offer>, parse: Parser, texts: Texts, c: Case) returns (j: nat)
    requires TypicalOf(client, offers, parse, texts) == Some(Some(c))
    ensures TypicalFrom(c, client, offers, j, parse, texts)
  {
    var segments := Audit.SegmentList(client, []).value;
    j := CandidatesFirst(client, offers, Baseline.TargetCategory(client, segments, parse).value, texts.ints);
  }

  /** At most eight typical cases, each expecting the generator's choice for its own client. */
  lemma TypicalCasesFrom(clients: seq<Client>, offers: seq<Offer>, parse: Parser, texts: Texts)
    requires TypicalCasesOf(clients, offers, parse, texts).Some?
    ensures |TypicalCasesOf(clients, offers, parse, texts).value| <= CASES_PER_TYPE
    ensures forall c :: c in TypicalCasesOf(clients, offers, parse, texts).value ==>
              TypicalFromSome(c, clients, offers, parse, texts)
  {
    var found := TypicalsOf(clients, offers, parse, texts);
    CollectedFrom(found, CASES_PER_TYPE);
    forall c | Some(Some(c)) in found ensures TypicalFromSome(c, clients, offers, parse, texts) {
      var i :| 0 <= i < |found| && found[i] == Some(Some(c));
      var j := TypicalOfFrom(clients[i], offers, parse, texts, c);
      assert clients[i] in clients;
    }
  }
}
