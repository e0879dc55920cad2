/** The Flask web application's store logic: the index page reads the target
    weight and the auto mode from the shared store, and the update handler
    writes a new target weight (rounded to hundredths) or flips the auto mode. */
module App {
  import opened Store

  /** The store keys the web application uses, written out in its source. */
  const TargetWeightKey := "target_weight"
  const AutoModeKey := "auto_mode"

  /** The form fields of the update request. */
  const SetWeightField := "set_weight"
  const ToggleField := "toggle"
  const TargetWeightField := "target_weight"

  /** Where the update handler redirects: the index page. */
  const IndexUrl := "/app/"

  /** The default decimal context's precision, in digits: a quantized result
      whose coefficient needs more digits raises InvalidOperation. */
  const Precision: nat := 28

  function Pow10(n: nat): (p: nat)
    ensures p >= 1
  {
    if n == 0 then 1 else 10 * Pow10(n - 1)
  }

  // ---------------------------------------------------------------------------
  // Rounding to hundredths

  /** Round to the nearest integer, ties to the even one (ROUND_HALF_EVEN). */
  function RoundHalfEven(y: real): (n: int)
    ensures -0.5 <= n as real - y <= 0.5
    ensures (n as real - y == 0.5 || y - n as real == 0.5) ==> n % 2 == 0
  {
    var f := y.Floor;
    var frac := y - f as real;
    if frac < 0.5 then f
    else if frac > 0.5 then f + 1
    else if f % 2 == 0 then f
    else f + 1
  }

  /** The rounding is determined by its contract: no other integer is as close
      with the same tie rule. */
  lemma RoundHalfEvenUnique(y: real, m: int)
    requires -0.5 <= m as real - y <= 0.5
    requires (m as real - y == 0.5 || y - m as real == 0.5) ==> m % 2 == 0
    ensures m == RoundHalfEven(y)
  {
  }

  /** Decimal.quantize(Decimal('0.01')) in the default context: the number of
      hundredths after rounding half to even, or None (InvalidOperation) when
      that count has more digits than the precision allows. */
  function Quantize(x: real): (q: Option<int>)
    ensures q.None? <==> Pow10(Precision) <= Abs(RoundHalfEven(x * 100.0))
    ensures q.Some? ==> q.value == RoundHalfEven(x * 100.0)
  {
    var n := RoundHalfEven(x * 100.0);
    if Abs(n) < Pow10(Precision) then Some(n) else None
  }

  function Abs(n: int): nat {
    if n < 0 then -n else n
  }

  /** A weight that already has at most two decimals is stored exactly. */
  lemma QuantizeExact(x: real, k: int)
    requires x * 100.0 == k as real && Abs(k) < Pow10(Precision)
    ensures Quantize(x) == Some(k)
  {
    RoundHalfEvenUnique(x * 100.0, k);
  }

  /** v is the number x rounded half to even to two decimals: a whole number
      of hundredths, at most half a hundredth away, and even on a tie. */
  predicate RoundsTo(x: real, v: Value) {
    v.Num? &&
    var y := v.x * 100.0;
    && y.Floor as real == y
    && -0.5 <= y - x * 100.0 <= 0.5
    && ((y - x * 100.0 == 0.5 || x * 100.0 - y == 0.5) ==> y.Floor % 2 == 0)
  }

  /** The stored number, n hundredths, is x rounded half to even to two decimals. */
  lemma RoundedWeight(x: real, n: int)
    requires n == RoundHalfEven(x * 100.0)
    ensures RoundsTo(x, Num(n as real / 100.0))
  {
    var y := (n as real / 100.0) * 100.0;
    assert y == n as real;
    assert y.Floor == n;
  }

  // ---------------------------------------------------------------------------
  // The store accessors

  /** The stored value under key, or the default when the key is absent. */
  function GetMemcacheValue(mc: Memcache, key: string, default: Value): (v: Value)
    reads mc
    ensures key in mc.data ==> v == mc.data[key]
    ensures key !in mc.data ==> v == default
  {
    match mc.Get(key)
    case None => default
    case Some(stored) => stored
  }

  method SetMemcacheValue(mc: Memcache, key: string, v: Value)
    modifies mc
    ensures mc.data == old(mc.data)[key := v]
  {
    mc.Set(key, v);
  }

  /** The index page's two values: the target weight (default 0.00) and the auto
      mode (default False).  Reading them changes nothing. */
  function Index(mc: Memcache): (page: (Value, Value))
    reads mc
    ensures TargetWeightKey in mc.data ==> page.0 == mc.data[TargetWeightKey]
    ensures TargetWeightKey !in mc.data ==> page.0 == Num(0.0)
    ensures AutoModeKey in mc.data ==> page.1 == mc.data[AutoModeKey]
    ensures AutoModeKey !in mc.data ==> page.1 == Flag(false)
  {
    (GetMemcacheValue(mc, TargetWeightKey, Num(0.0)), GetMemcacheValue(mc, AutoModeKey, Flag(false)))
  }

  // ---------------------------------------------------------------------------
  // The update handler

  /** A form is a set of named text fields; parse is Decimal's constructor on a
      string, None when it raises InvalidOperation. */
  type Form = map<string, string>

  /** The store after an update request, or None when the request is rejected
      (set_weight without a target_weight field: a 400 response). */
  function UpdatedData(data: map<string, Value>, form: Form, parse: string -> Option<real>): (r: Option<map<string, Value>>)
    ensures r.None? <==> SetWeightField in form && TargetWeightField !in form
    // Only the key of the chosen branch can change.
    ensures r.Some? ==> forall key :: key != TargetWeightKey && key != AutoModeKey ==>
              (key in r.value <==> key in data) && (key in data ==> r.value[key] == data[key])
    // set_weight takes precedence: it never touches the mode.
    ensures r.Some? && SetWeightField in form ==>
              (AutoModeKey in r.value <==> AutoModeKey in data) && (AutoModeKey in data ==> r.value[AutoModeKey] == data[AutoModeKey])
    // A parseable weight within the precision is stored rounded to hundredths.
    ensures r.Some? && SetWeightField in form && parse(form[TargetWeightField]).Some? && Quantize(parse(form[TargetWeightField]).value).Some? ==>
              TargetWeightKey in r.value && RoundsTo(parse(form[TargetWeightField]).value, r.value[TargetWeightKey])
    // Anything else in the set_weight branch leaves the store as it was.
    ensures r.Some? && SetWeightField in form && (parse(form[TargetWeightField]).None? || Quantize(parse(form[TargetWeightField]).value).None?) ==>
              r.value == data
    // A toggle stores the negation of the current mode's truth, False when absent.
    ensures SetWeightField !in form && ToggleField in form ==>
              r.Some? && r.value == data[AutoModeKey := Flag(!Truthy(Lookup(data, AutoModeKey, Flag(false))))]
    // Neither field: nothing changes.
    ensures SetWeightField !in form && ToggleField !in form ==> r == Some(data)
  {
    if SetWeightField in form then
      if TargetWeightField !in form then None
      else
        match parse(form[TargetWeightField])
        case None => Some(data)
        case Some(x) =>
          match Quantize(x)
          case None => Some(data)
          case Some(n) =>
            RoundedWeight(x, n);
            Some(data[TargetWeightKey := Num(n as real / 100.0)])
    else if ToggleField in form then
      Some(data[AutoModeKey := Flag(!Truthy(Lookup(data, AutoModeKey, Flag(false))))])
    else
      Some(data)
  }

  /** Two toggles in a row leave the mode with the truth it started with (now as a boolean). */
  lemma ToggleTwice(data: map<string, Value>, form: Form, parse: string -> Option<real>)
    requires SetWeightField !in form && ToggleField in form
    ensures var once := UpdatedData(data, form, parse).value;
            var twice := UpdatedData(once, form, parse).value;
            twice == data[AutoModeKey := Flag(Truthy(Lookup(data, AutoModeKey, Flag(false))))]
  {
  }

  datatype Response = Redirect(location: string) | BadRequest

  /** POST /app/update: a read-modify-write on the store, then a redirect to the
      index page; a set_weight request without its target_weight field is
      rejected with nothing written. */
  method Update(mc: Memcache, form: Form, parse: string -> Option<real>) returns (response: Response)
    modifies mc
    ensures var r := UpdatedData(old(mc.data), form, parse);
            && (r.None? ==> response == BadRequest && mc.data == old(mc.data))
            && (r.Some? ==> response == Redirect(IndexUrl) && mc.data == r.value)
  {
    if SetWeightField in form {
      if TargetWeightField !in form {
        return BadRequest;
      }
      var weightStr := form[TargetWeightField];
      var parsed := parse(weightStr);
      if parsed.Some? {
        var quantized := Quantize(parsed.value);
        if quantized.Some? {
          SetMemcacheValue(mc, TargetWeightKey, Num(quantized.value as real / 100.0));
        }
      }
    } else if ToggleField in form {
      var autoMode := !Truthy(GetMemcacheValue(mc, AutoModeKey, Flag(false)));
      SetMemcacheValue(mc, AutoModeKey, Flag(autoMode));
    }
    response := Redirect(IndexUrl);
  }
}
