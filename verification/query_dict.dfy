/**
 * The structured view that `intercooler_data` builds (an `IntercoolerQueryDict`)
 * and its accessor properties (intercooler_helpers/middleware.py:31-71).
 *
 * A Django query dictionary maps a name to a LIST of values. `get(key, default)`
 * answers the last value of the list, or `default` when the key is missing or
 * the last value is the empty list `[]`.
 */
module QueryDicts {
  import opened Wrappers

  /** A parameter bag of the request: name to list of submitted strings. */
  type Bag = map<string, seq<string>>

  /**
   * A value stored in the view. Besides strings the source stores the empty
   * list `[]` (an `ic-*` key whose list was empty) and `None` (an absent
   * `_method`).
   */
  datatype Val = Str(text: string) | EmptyMarker | Null

  /** The view: a multi-valued dictionary plus the `changed_method` attribute. */
  datatype IcQueryDict = IcQueryDict(lists: map<string, seq<Val>>, changedMethod: bool)

  /** The `(name, id)` pair of the element or the trigger. */
  datatype NameId = NameId(name: Option<string>, id: Option<string>)

  /**
   * Why `int(...)` raised. `NotAString` is `int(None)`: it needs a `None`
   * stored under `ic-id`, which a view built by the extraction never holds
   * (there an `ic-*` list holds a `Str` or the empty marker, and `get` reads
   * the empty marker as the default `"0"`).
   */
  datatype IdError = NotAnInteger(text: string) | NotAString

  /** `QueryDict.get(key)` on a request bag: the last string, or nothing. */
  function BagGet(bag: Bag, key: string): Option<string>
  {
    if key in bag && |bag[key]| > 0 then Some(bag[key][|bag[key]| - 1]) else None
  }

  /** `MultiValueDict.get(key, default)` on the view. */
  function Get(lists: map<string, seq<Val>>, key: string, default: Val): Val
  {
    if key !in lists || |lists[key]| == 0 then default
    else
      var last := lists[key][|lists[key]| - 1];
      if last == EmptyMarker then default else last
  }

  /** `MultiValueDict.update({key: value})`: appends `value` to the list under `key`. */
  function Append(lists: map<string, seq<Val>>, key: string, value: Val): map<string, seq<Val>>
  {
    lists[key := (if key in lists then lists[key] else []) + [value]]
  }

  /** A `str` result, or Python `None` for anything else. */
  function AsText(v: Val): Option<string>
  {
    if v.Str? then Some(v.text) else None
  }

  // ---------------------------------------------------------------------------
  // Decimal integers, as `int()` reads the `ic-id` counter.

  predicate IsDigit(c: char) { '0' <= c <= '9' }

  predicate AllDigits(s: string) { forall i :: 0 <= i < |s| ==> IsDigit(s[i]) }

  function DigitValue(c: char): nat
    requires IsDigit(c)
  {
    c as int - '0' as int
  }

  function DigitChar(d: nat): char
    requires d < 10
  {
    ('0' as int + d) as char
  }

  /** The number written by a string of decimal digits, most significant first. */
  function DecimalValue(s: string): nat
    requires AllDigits(s)
  {
    if |s| == 0 then 0 else 10 * DecimalValue(s[..|s| - 1]) + DigitValue(s[|s| - 1])
  }

  /** `int(s)` restricted to plain digit strings; anything else raises. */
  function ParseInt(s: string): Result<int, IdError>
  {
    if |s| > 0 && AllDigits(s) then Success(DecimalValue(s)) else Failure(NotAnInteger(s))
  }

  /** The decimal rendering of `n`, as the client writes its request counter. */
  function ShowNat(n: nat): (s: string)
    ensures |s| > 0 && AllDigits(s)
  {
    if n < 10 then [DigitChar(n)] else ShowNat(n / 10) + [DigitChar(n % 10)]
  }

  lemma {:induction false} DecimalOfShowNat(n: nat)
    ensures DecimalValue(ShowNat(n)) == n
  {
    var s := ShowNat(n);
    if n >= 10 {
      DecimalOfShowNat(n / 10);
      assert s[..|s| - 1] == ShowNat(n / 10);
    }
  }

  /** Parsing the decimal rendering of a counter gives the counter back. */
  lemma ParseShowRoundTrip(n: nat)
    ensures ParseInt(ShowNat(n)) == Success(n)
  {
    DecimalOfShowNat(n);
  }

  /** A string with a character that is not a decimal digit does not parse. */
  lemma ParseRejectsNonDigit(s: string, i: nat)
    requires i < |s| && !IsDigit(s[i])
    ensures ParseInt(s).Failure?
  {
  }

  // ---------------------------------------------------------------------------
  // The accessor properties of `IntercoolerQueryDict`.

  /** `element`: the element's name and id. */
  function Element(v: IcQueryDict): (r: NameId)
    ensures "ic-element-name" !in v.lists ==> r.name == None
    ensures "ic-element-id" !in v.lists ==> r.id == None
    ensures r.name.Some? ==> "ic-element-name" in v.lists && v.lists["ic-element-name"] != []
    ensures r.id.Some? ==> "ic-element-id" in v.lists && v.lists["ic-element-id"] != []
  {
    NameId(AsText(Get(v.lists, "ic-element-name", Null)), AsText(Get(v.lists, "ic-element-id", Null)))
  }

  /** `id`: `int(get("ic-id", "0"))`. */
  function Id(v: IcQueryDict): (r: Result<int, IdError>)
    ensures "ic-id" !in v.lists ==> r == Success(0)
    ensures r.Success? ==> r.value >= 0
  {
    match Get(v.lists, "ic-id", Str("0"))
    case Str(s) => ParseInt(s)
    // only a `None` stored under `ic-id` gets here; see `IdError`
    case _ => Failure(NotAString)
  }

  /** `request`: `bool(get("ic-request", None))`. */
  function RequestFlag(v: IcQueryDict): (r: bool)
    ensures r ==> "ic-request" in v.lists && v.lists["ic-request"] != []
  {
    match Get(v.lists, "ic-request", Null)
    case Str(s) => s != ""
    case _ => false
  }

  /** `target_id`. */
  function TargetId(v: IcQueryDict): (r: Option<string>)
    ensures "ic-target-id" !in v.lists ==> r == None
    ensures r.Some? ==> "ic-target-id" in v.lists && v.lists["ic-target-id"] != []
  {
    AsText(Get(v.lists, "ic-target-id", Null))
  }

  /** `trigger`: the trigger's name and id. */
  function Trigger(v: IcQueryDict): (r: NameId)
    ensures "ic-trigger-name" !in v.lists ==> r.name == None
    ensures "ic-trigger-id" !in v.lists ==> r.id == None
    ensures r.name.Some? ==> "ic-trigger-name" in v.lists && v.lists["ic-trigger-name"] != []
    ensures r.id.Some? ==> "ic-trigger-id" in v.lists && v.lists["ic-trigger-id"] != []
  {
    NameId(AsText(Get(v.lists, "ic-trigger-name", Null)), AsText(Get(v.lists, "ic-trigger-id", Null)))
  }

  /** `prompt_value`. */
  function PromptValue(v: IcQueryDict): (r: Option<string>)
    ensures "ic-prompt-value" !in v.lists ==> r == None
    ensures r.Some? ==> "ic-prompt-value" in v.lists && v.lists["ic-prompt-value"] != []
  {
    AsText(Get(v.lists, "ic-prompt-value", Null))
  }

  /** Without an `ic-id` entry the counter is 0. */
  lemma IdDefaultsToZero(v: IcQueryDict)
    requires "ic-id" !in v.lists
    ensures Id(v) == Success(0)
  {
  }

  /** An `ic-id` whose last value is the decimal rendering of `n` reads as `n`. */
  lemma IdReadsCounter(v: IcQueryDict, n: nat)
    requires "ic-id" in v.lists && |v.lists["ic-id"]| > 0
    requires v.lists["ic-id"][|v.lists["ic-id"]| - 1] == Str(ShowNat(n))
    ensures Id(v) == Success(n)
  {
    ParseShowRoundTrip(n);
  }

  /** A non-numeric `ic-id` makes `id` raise instead of defaulting. */
  lemma IdRejectsNonNumeric(v: IcQueryDict, s: string)
    requires "ic-id" in v.lists && |v.lists["ic-id"]| > 0
    requires v.lists["ic-id"][|v.lists["ic-id"]| - 1] == Str(s)
    requires s == "" || exists i :: 0 <= i < |s| && !IsDigit(s[i])
    ensures Id(v).Failure?
  {
  }

  /** `request` holds exactly when the last `ic-request` value is a non-empty string. */
  lemma RequestFlagIff(v: IcQueryDict)
    ensures RequestFlag(v) <==>
      ("ic-request" in v.lists && |v.lists["ic-request"]| > 0 &&
       var last := v.lists["ic-request"][|v.lists["ic-request"]| - 1];
       last.Str? && last.text != "")
  {
  }
}
