/**
 * Request annotation (intercooler_helpers/middleware.py:86-138): the
 * `intercooler_data` extraction with its per-request cache, and the two
 * "is this an intercooler request" predicates.
 */
module IntercoolerData {
  import opened Wrappers
  import opened QueryDicts

  /** The nine recognised `ic-*` parameters, in the order they are scanned. */
  const IcKeys: seq<string> := [
    "ic-current-url",
    "ic-element-id",
    "ic-element-name",
    "ic-id",
    "ic-prompt-value",
    "ic-target-id",
    "ic-trigger-id",
    "ic-trigger-name",
    "ic-request"
  ]

  /** The legacy method-override parameter, read but never removed. */
  const MethodKey := "_method"

  /** The header whose value `"true"` signals an intercooler client. */
  const IcRequestHeader := "HTTP_X_IC_REQUEST"

  lemma IcKeysDistinct()
    ensures forall i, j :: 0 <= i < j < |IcKeys| ==> IcKeys[i] != IcKeys[j]
    ensures MethodKey !in IcKeys
  {
  }

  /** Methods whose parameters come from the query string. */
  predicate IsSafeMethod(m: string)
  {
    m == "GET" || m == "HEAD" || m == "OPTIONS"
  }

  /** The value a popped `ic-*` list contributes: its last element, or `[]` when empty. */
  function Removed(vals: seq<string>): (r: Val)
    ensures r != Null
    ensures r.Str? <==> |vals| > 0
    ensures r.Str? ==> r.text == vals[|vals| - 1]
  {
    if |vals| > 0 then Str(vals[|vals| - 1]) else EmptyMarker
  }

  /** What `get("_method")` records: the last value, or `None`. */
  function MethodValue(bag: Bag): (r: Val)
    ensures r != EmptyMarker
    ensures r.Str? <==> MethodKey in bag && |bag[MethodKey]| > 0
    ensures r.Str? ==> r.text == bag[MethodKey][|bag[MethodKey]| - 1]
  {
    match BagGet(bag, MethodKey)
    case Some(s) => Str(s)
    case None => Null
  }

  /** The bag left behind by the extraction: every `ic-*` key taken out. */
  function StrippedBag(bag: Bag): Bag
  {
    map k | k in bag && k !in IcKeys :: bag[k]
  }

  /** The view the extraction builds from the selected bag. */
  function ExtractedView(bag: Bag, changedMethod: bool): IcQueryDict
  {
    IcQueryDict(
      map k | k in (set j | j in bag && j in IcKeys) + {MethodKey} ::
        if k == MethodKey then [MethodValue(bag)] else [Removed(bag[k])],
      changedMethod)
  }

  /** The bag after the keys `done` have been popped. */
  function PoppedBag(bag: Bag, done: seq<string>): Bag
  {
    map k | k in bag && k !in done :: bag[k]
  }

  /** The view's lists after the keys `done` have been moved into it. */
  function MovedLists(bag: Bag, done: seq<string>): map<string, seq<Val>>
  {
    map k | k in bag && k in done :: [Removed(bag[k])]
  }

  /** A key scanned at position `i` was not among the keys scanned before it. */
  lemma KeyNotScannedBefore(i: nat)
    requires i < |IcKeys|
    ensures IcKeys[i] !in IcKeys[..i]
  {
    IcKeysDistinct();
  }

  /** Popping one more key removes it from the bag. */
  lemma PoppedBagStep(bag: Bag, done: seq<string>, key: string)
    ensures PoppedBag(bag, done) - {key} == PoppedBag(bag, done + [key])
  {
    var lhs := PoppedBag(bag, done) - {key};
    var rhs := PoppedBag(bag, done + [key]);
    forall k ensures k in lhs <==> k in rhs {
      assert k in done + [key] <==> k in done || k == key;
    }
  }

  /** Moving one more key into the view extends the moved lists by that key. */
  lemma MovedListsStep(bag: Bag, done: seq<string>, key: string)
    requires key in bag && key !in done
    ensures Append(MovedLists(bag, done), key, Removed(bag[key])) == MovedLists(bag, done + [key])
  {
    var lhs := Append(MovedLists(bag, done), key, Removed(bag[key]));
    var rhs := MovedLists(bag, done + [key]);
    forall k ensures k in lhs <==> k in rhs {
      assert k in done + [key] <==> k in done || k == key;
    }
    forall k | k in lhs ensures lhs[k] == rhs[k] {
      assert k in done + [key];
    }
  }

  /** Once every `ic-*` key is moved, recording `_method` completes the view. */
  lemma MovedListsComplete(bag: Bag)
    ensures Append(MovedLists(bag, IcKeys), MethodKey, MethodValue(bag)) ==
      ExtractedView(bag, false).lists
  {
    IcKeysDistinct();
    var lhs := Append(MovedLists(bag, IcKeys), MethodKey, MethodValue(bag));
    var rhs := ExtractedView(bag, false).lists;
    forall k ensures k in lhs <==> k in rhs {
    }
    forall k | k in lhs ensures lhs[k] == rhs[k] {
    }
  }

  /** An HTTP request, with the attributes the middleware attaches to it. */
  class Request {
    var httpMethod: string
    var getParams: Bag
    var postParams: Bag
    /** `request.META`: the CGI-style header dictionary. */
    var meta: map<string, string>
    /** The framework's `is_ajax()` answer. */
    var isAjax: bool
    /** `request.changed_method`, when a method-override middleware set it. */
    var changedMethod: Option<bool>
    /** `request._processed_intercooler_data`, the cached view. */
    var processed: Option<IcQueryDict>

    constructor (httpMethod: string, getParams: Bag, postParams: Bag, meta: map<string, string>,
                 isAjax: bool, changedMethod: Option<bool>)
      ensures this.httpMethod == httpMethod && this.getParams == getParams && this.postParams == postParams
      ensures this.meta == meta && this.isAjax == isAjax && this.changedMethod == changedMethod
      ensures processed == None
    {
      this.httpMethod := httpMethod;
      this.getParams := getParams;
      this.postParams := postParams;
      this.meta := meta;
      this.isAjax := isAjax;
      this.changedMethod := changedMethod;
      processed := None;
    }

    /** The bag the request's method selects: GET for safe methods, POST otherwise. */
    function Params(): (r: Bag)
      reads this
      ensures httpMethod == "GET" || httpMethod == "HEAD" || httpMethod == "OPTIONS" ==> r == getParams
      ensures httpMethod != "GET" && httpMethod != "HEAD" && httpMethod != "OPTIONS" ==> r == postParams
    {
      if IsSafeMethod(httpMethod) then getParams else postParams
    }

    /** `maybe_intercooler()`: `META.get("HTTP_X_IC_REQUEST") == "true"`. */
    predicate MaybeIntercooler()
      reads this
      ensures MaybeIntercooler() <==> IcRequestHeader in meta && meta[IcRequestHeader] == "true"
    {
      (if IcRequestHeader in meta then Some(meta[IcRequestHeader]) else None) == Some("true")
    }

    /** `is_intercooler()`: an AJAX request that also carries the intercooler header. */
    predicate IsIntercooler()
      reads this
      ensures !isAjax ==> !IsIntercooler()
      ensures IsIntercooler() ==> IcRequestHeader in meta && meta[IcRequestHeader] == "true"
    {
      isAjax && MaybeIntercooler()
    }

    /** `query_params.pop(key)` on the selected bag: removes the key, answers its list. */
    method PopParam(key: string) returns (vals: seq<string>)
      requires key in Params()
      modifies this`getParams, this`postParams
      ensures vals == old(Params())[key]
      ensures Params() == old(Params()) - {key}
      ensures IsSafeMethod(httpMethod) ==> postParams == old(postParams)
      ensures !IsSafeMethod(httpMethod) ==> getParams == old(getParams)
    {
      if IsSafeMethod(httpMethod) {
        vals := getParams[key];
        getParams := getParams - {key};
      } else {
        vals := postParams[key];
        postParams := postParams - {key};
      }
    }

    /**
     * `intercooler_data(request)`: on the first call, moves the `ic-*`
     * parameters out of the selected bag into a fresh view and caches it; on
     * later calls, answers the cached view and changes nothing.
     */
    method IntercoolerData() returns (view: IcQueryDict)
      modifies this`getParams, this`postParams, this`processed
      ensures processed == Some(view)
      ensures old(processed).Some? ==>
        view == old(processed).value && getParams == old(getParams) && postParams == old(postParams)
      ensures old(processed).None? ==>
        view == ExtractedView(old(Params()), old(changedMethod).GetOr(false)) &&
        Params() == StrippedBag(old(Params()))
      ensures IsSafeMethod(httpMethod) ==> postParams == old(postParams)
      ensures !IsSafeMethod(httpMethod) ==> getParams == old(getParams)
    {
      if processed.Some? {
        return processed.value;
      }
      view := Extract();
      processed := Some(view);
    }

    /** The uncached body of `intercooler_data`: the scan over the `ic-*` keys. */
    method Extract() returns (view: IcQueryDict)
      modifies this`getParams, this`postParams
      ensures view == ExtractedView(old(Params()), changedMethod.GetOr(false))
      ensures Params() == StrippedBag(old(Params()))
      ensures IsSafeMethod(httpMethod) ==> postParams == old(postParams)
      ensures !IsSafeMethod(httpMethod) ==> getParams == old(getParams)
    {
      ghost var bag := Params();
      var lists: map<string, seq<Val>> := map[];
      var queryKeys := Params().Keys;
      var i := 0;
      while i < |IcKeys|
        invariant 0 <= i <= |IcKeys|
        invariant Params() == PoppedBag(bag, IcKeys[..i])
        invariant lists == MovedLists(bag, IcKeys[..i])
        invariant IsSafeMethod(httpMethod) ==> postParams == old(postParams)
        invariant !IsSafeMethod(httpMethod) ==> getParams == old(getParams)
      {
        var key := IcKeys[i];
        assert IcKeys[..i + 1] == IcKeys[..i] + [key];
        if key in queryKeys {
          KeyNotScannedBefore(i);
          var popped := PopParam(key);
          lists := Append(lists, key, Removed(popped));
          MovedListsStep(bag, IcKeys[..i], key);
          PoppedBagStep(bag, IcKeys[..i], key);
        }
        i := i + 1;
      }
      assert IcKeys[..i] == IcKeys;
      assert MethodValue(Params()) == MethodValue(bag) by { IcKeysDistinct(); }
      lists := Append(lists, MethodKey, MethodValue(Params()));
      MovedListsComplete(bag);
      view := IcQueryDict(lists, changedMethod.GetOr(false));
    }
  }

  // ---------------------------------------------------------------------------
  // Properties of the extraction.

  /** The stripped bag holds no `ic-*` key, gains no key, and every other key keeps its list. */
  lemma StrippedBagKeepsOthers(bag: Bag)
    ensures StrippedBag(bag).Keys == bag.Keys - set k | k in IcKeys
    ensures forall k :: k in IcKeys ==> k !in StrippedBag(bag)
    ensures forall k :: k in bag && k !in IcKeys ==> k in StrippedBag(bag) && StrippedBag(bag)[k] == bag[k]
    ensures MethodKey in bag ==> StrippedBag(bag)[MethodKey] == bag[MethodKey]
  {
    IcKeysDistinct();
  }

  /**
   * Each `ic-*` key present in the bag is mapped to the single last value of
   * its list (the empty marker for an empty list); absent ones stay absent.
   */
  lemma ExtractedIcKeys(bag: Bag, changedMethod: bool, k: string)
    requires k in IcKeys
    ensures k in ExtractedView(bag, changedMethod).lists <==> k in bag
    ensures k in bag ==> (ExtractedView(bag, changedMethod).lists[k] ==
      [if |bag[k]| > 0 then Str(bag[k][|bag[k]| - 1]) else EmptyMarker])
  {
    IcKeysDistinct();
  }

  /** The view always holds `_method` and the request's `changed_method` flag. */
  lemma ExtractedMethodOverride(bag: Bag, changedMethod: bool)
    ensures ExtractedView(bag, changedMethod).lists[MethodKey] ==
      [if MethodKey in bag && |bag[MethodKey]| > 0 then Str(bag[MethodKey][|bag[MethodKey]| - 1]) else Null]
    ensures ExtractedView(bag, changedMethod).changedMethod == changedMethod
    ensures forall k :: k in ExtractedView(bag, changedMethod).lists ==> k == MethodKey || k in IcKeys
  {
    var r := MethodValue(bag);
    assert r.Str? || r == Null;
  }

  /**
   * The view's accessors answer what `get` on the original bag would have
   * answered: moving the parameters out loses nothing the accessors read.
   */
  lemma AccessorsSeeOriginalBag(bag: Bag, changedMethod: bool)
    ensures Element(ExtractedView(bag, changedMethod)) ==
      NameId(BagGet(bag, "ic-element-name"), BagGet(bag, "ic-element-id"))
    ensures Trigger(ExtractedView(bag, changedMethod)) ==
      NameId(BagGet(bag, "ic-trigger-name"), BagGet(bag, "ic-trigger-id"))
    ensures TargetId(ExtractedView(bag, changedMethod)) == BagGet(bag, "ic-target-id")
    ensures PromptValue(ExtractedView(bag, changedMethod)) == BagGet(bag, "ic-prompt-value")
    ensures RequestFlag(ExtractedView(bag, changedMethod)) <==>
      BagGet(bag, "ic-request").Some? && BagGet(bag, "ic-request").value != ""
    ensures Id(ExtractedView(bag, changedMethod)) == ParseInt(BagGet(bag, "ic-id").GetOr("0"))
  {
    IcKeysDistinct();
    var lists := ExtractedView(bag, changedMethod).lists;
    forall k | k in IcKeys
      ensures Get(lists, k, Null) == (match BagGet(bag, k) case Some(s) => Str(s) case None => Null)
      ensures Get(lists, k, Str("0")) == Str(BagGet(bag, k).GetOr("0"))
    {
      ExtractedIcKeys(bag, changedMethod, k);
    }
  }

  /** A request without `ic-*` parameters reports every documented default. */
  lemma DefaultsWithoutIcKeys(bag: Bag, changedMethod: bool)
    requires forall k :: k in IcKeys ==> k !in bag
    ensures Element(ExtractedView(bag, changedMethod)) == NameId(None, None)
    ensures Trigger(ExtractedView(bag, changedMethod)) == NameId(None, None)
    ensures Id(ExtractedView(bag, changedMethod)) == Success(0)
    ensures !RequestFlag(ExtractedView(bag, changedMethod))
    ensures TargetId(ExtractedView(bag, changedMethod)) == None
    ensures PromptValue(ExtractedView(bag, changedMethod)) == None
  {
    AccessorsSeeOriginalBag(bag, changedMethod);
    assert ParseInt("0") == Success(0) by { assert ShowNat(0) == "0"; ParseShowRoundTrip(0); }
  }

  /** `ic-id=n` in the bag gives `id == n`. */
  lemma ExtractedIdIsCounter(bag: Bag, changedMethod: bool, n: nat)
    requires "ic-id" in bag && |bag["ic-id"]| > 0 && bag["ic-id"][|bag["ic-id"]| - 1] == ShowNat(n)
    ensures Id(ExtractedView(bag, changedMethod)) == Success(n)
  {
    AccessorsSeeOriginalBag(bag, changedMethod);
    ParseShowRoundTrip(n);
  }

  /**
   * Extracting again from the stripped bag finds nothing: the bag is left as
   * it is and the new view holds only `_method`.
   */
  lemma SecondExtractionFindsNothing(bag: Bag, changedMethod: bool)
    ensures StrippedBag(StrippedBag(bag)) == StrippedBag(bag)
    ensures ExtractedView(StrippedBag(bag), changedMethod).lists.Keys == {MethodKey}
    ensures ExtractedView(StrippedBag(bag), changedMethod).lists[MethodKey] ==
      ExtractedView(bag, changedMethod).lists[MethodKey]
  {
    IcKeysDistinct();
    var lists := ExtractedView(StrippedBag(bag), changedMethod).lists;
    assert MethodKey in lists;
    forall k | k in lists ensures k == MethodKey {
    }
  }

  /** `is_intercooler` needs both signals: the AJAX flag and the header equal to "true". */
  lemma IntercoolerNeedsBothSignals(r: Request)
    ensures r.IsIntercooler() <==>
      r.isAjax && IcRequestHeader in r.meta && r.meta[IcRequestHeader] == "true"
  {
  }

  /** Calling `intercooler_data` twice returns the same view, which stays cached. */
  method CalledTwice(r: Request) returns (first: IcQueryDict, second: IcQueryDict)
    modifies r`getParams, r`postParams, r`processed
    ensures first == second
    ensures r.processed == Some(first)
  {
    first := r.IntercoolerData();
    second := r.IntercoolerData();
  }
}
