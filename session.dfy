/**
 * The script body of the converter: the per-session store of the selected
 * mode and the last-entered prices, rate and amounts; its first-run
 * initialisation; and, for each form, the reassignment of those entries
 * from the form's widgets followed by the submit rule of module Forms.
 *
 * The session store is a map from key to value, because a key that is
 * absent differs from a key present with the value `None`. A numeric
 * widget shows an initial value and returns it unless the user enters
 * another one; what the user does is an `Edit`.
 */
module Session {
  import opened Options
  import opened Units
  import opened Forms

  /** The three choices of the conversion-type radio. */
  datatype Mode = GweiToUsdIdr | SatsToUsdIdr | SatsGweiConversion

  /** The two choices of the cross form's direction radio. */
  datatype Direction = FromSatoshis | FromGwei

  /** The session keys the script uses. */
  datatype Key =
    | SelectedConversionKey
    | EthPriceKey
    | BtcPriceKey
    | UsdToIdrRateKey
    | GweiInputValKey
    | SatsInputValKey

  datatype Value = ModeValue(mode: Mode) | PriceValue(price: Option<real>) | NumberValue(number: real)

  const AllKeys: set<Key> :=
    {SelectedConversionKey, EthPriceKey, BtcPriceKey, UsdToIdrRateKey, GweiInputValKey, SatsInputValKey}

  const DefaultUsdToIdr: real := 16200.0
  const DefaultEthPrice: real := 2000.0
  const DefaultBtcPrice: real := 30000.0

  /** `min_value` of the manual price widgets, the rate widget and the amount widgets. */
  const MinManualPrice: real := 0.01
  const MinRate: real := 1.0
  const MinAmount: real := 0.0

  /** The value a key may hold: the widgets that write it never go below their minimum. */
  predicate Fits(k: Key, v: Value) {
    match k
    case SelectedConversionKey => v.ModeValue?
    case EthPriceKey => v.PriceValue?
    case BtcPriceKey => v.PriceValue?
    case UsdToIdrRateKey => v.NumberValue? && v.number >= MinRate
    case GweiInputValKey => v.NumberValue? && v.number >= MinAmount
    case SatsInputValKey => v.NumberValue? && v.number >= MinAmount
  }

  /** Every key present holds a value of its kind. */
  predicate Consistent(m: map<Key, Value>) {
    forall k :: k in m ==> Fits(k, m[k])
  }

  /** Every key is present. */
  predicate Complete(m: map<Key, Value>) {
    AllKeys <= m.Keys
  }

  lemma KeyInAllKeys(k: Key)
    ensures k in AllKeys
  {
  }

  /** The first-run value of each key. */
  function Default(k: Key): (v: Value)
    ensures Fits(k, v)
  {
    match k
    case SelectedConversionKey => ModeValue(GweiToUsdIdr)
    case EthPriceKey => PriceValue(None)
    case BtcPriceKey => PriceValue(None)
    case UsdToIdrRateKey => NumberValue(DefaultUsdToIdr)
    case GweiInputValKey => NumberValue(0.0)
    case SatsInputValKey => NumberValue(0.0)
  }

  /** One initialisation step: `k` gets its default when it is missing. */
  function WithDefault(m: map<Key, Value>, k: Key): (r: map<Key, Value>)
    ensures r.Keys == m.Keys + {k}
  {
    if k in m then m else m[k := Default(k)]
  }

  /** The session after initialisation, one key after another in the order of the script. */
  function Initialized(m: map<Key, Value>): (r: map<Key, Value>)
    ensures Complete(r)
  {
    WithDefault(WithDefault(WithDefault(WithDefault(WithDefault(WithDefault(m,
      SelectedConversionKey), EthPriceKey), BtcPriceKey), UsdToIdrRateKey), GweiInputValKey), SatsInputValKey)
  }

  /** One initialisation step keeps every key that is present and gives only its own key a default. */
  lemma WithDefaultAt(m: map<Key, Value>, k: Key, j: Key)
    ensures j in WithDefault(m, k) <==> j in m || j == k
    ensures j in m ==> WithDefault(m, k)[j] == m[j]
    ensures j !in m && j == k ==> WithDefault(m, k)[j] == Default(k)
  {
  }

  /** Initialisation keeps every key that is present and gives every missing key its default. */
  lemma InitializedAt(m: map<Key, Value>, k: Key)
    ensures k in Initialized(m)
    ensures k in m ==> Initialized(m)[k] == m[k]
    ensures k !in m ==> Initialized(m)[k] == Default(k)
  {
    // Follow `k` through the six steps, in the order of the script.
    var m1 := WithDefault(m, SelectedConversionKey);
    var m2 := WithDefault(m1, EthPriceKey);
    var m3 := WithDefault(m2, BtcPriceKey);
    var m4 := WithDefault(m3, UsdToIdrRateKey);
    var m5 := WithDefault(m4, GweiInputValKey);
    WithDefaultAt(m, SelectedConversionKey, k);
    WithDefaultAt(m1, EthPriceKey, k);
    WithDefaultAt(m2, BtcPriceKey, k);
    WithDefaultAt(m3, UsdToIdrRateKey, k);
    WithDefaultAt(m4, GweiInputValKey, k);
    WithDefaultAt(m5, SatsInputValKey, k);
  }

  /** Initialisation turns a session whose present keys are well-typed into a valid one. */
  lemma InitializedValid(m: map<Key, Value>)
    requires Consistent(m)
    ensures Complete(Initialized(m)) && Consistent(Initialized(m))
  {
    forall k | k in Initialized(m) ensures Fits(k, Initialized(m)[k]) {
      InitializedAt(m, k);
    }
  }

  /** Initialising twice is initialising once: on a later rerun nothing changes. */
  lemma InitializedIdempotent(m: map<Key, Value>)
    ensures Initialized(Initialized(m)) == Initialized(m)
  {
    var r := Initialized(m);
    forall k | k in r ensures Initialized(r)[k] == r[k] {
      InitializedAt(r, k);
    }
    assert Initialized(r).Keys == r.Keys;
  }

  /** A session whose keys are all present is left as it is. */
  lemma InitializedKeepsCompleteSession(m: map<Key, Value>)
    requires Complete(m)
    ensures Initialized(m) == m
  {
    forall k | k in m ensures k in AllKeys && Initialized(m)[k] == m[k] {
      KeyInAllKeys(k);
      InitializedAt(m, k);
    }
    assert Initialized(m).Keys == m.Keys;
  }

  /** A brand-new session gets exactly the documented defaults. */
  lemma FirstRunDefaults()
    ensures Initialized(map[]) ==
      map[SelectedConversionKey := ModeValue(GweiToUsdIdr), EthPriceKey := PriceValue(None),
          BtcPriceKey := PriceValue(None), UsdToIdrRateKey := NumberValue(16200.0),
          GweiInputValKey := NumberValue(0.0), SatsInputValKey := NumberValue(0.0)]
  {
    var m0: map<Key, Value> := map[];
    var m1 := WithDefault(m0, SelectedConversionKey);
    assert m1 == m0[SelectedConversionKey := ModeValue(GweiToUsdIdr)];
    var m2 := WithDefault(m1, EthPriceKey);
    assert m2 == m1[EthPriceKey := PriceValue(None)];
    var m3 := WithDefault(m2, BtcPriceKey);
    assert m3 == m2[BtcPriceKey := PriceValue(None)];
    var m4 := WithDefault(m3, UsdToIdrRateKey);
    assert m4 == m3[UsdToIdrRateKey := NumberValue(16200.0)];
    var m5 := WithDefault(m4, GweiInputValKey);
    assert m5 == m4[GweiInputValKey := NumberValue(0.0)];
  }

  /** What the user does with a numeric widget: leave its initial value or enter another. */
  datatype Edit = Keep | Enter(entered: real)

  /** The value a numeric widget returns. */
  function NumberInput(initial: real, edit: Edit): (v: real)
    ensures edit.Keep? ==> v == initial
    ensures edit.Enter? ==> v == edit.entered
  {
    match edit
    case Keep => initial
    case Enter(v) => v
  }

  /** The widget accepts only entries at or above its `min_value`. */
  predicate EditAllowed(minValue: real, edit: Edit) {
    edit.Enter? ==> edit.entered >= minValue
  }

  /** One price field: the live fetch result (`None` when it failed) and the user's edit. */
  datatype PriceField = PriceField(fetched: Option<real>, edit: Edit)

  /** The initial value of a manual price widget: the last session price, else the default. */
  function ManualSeed(previous: Option<real>, default: real): (seed: real)
    ensures previous.Some? ==> seed == previous.value
    ensures previous.None? ==> seed == default
  {
    if previous.Some? then previous.value else default
  }

  /**
   * The price a form stores: the live price, editable and without a
   * minimum, when the fetch succeeded; the manual widget seeded by
   * `ManualSeed` otherwise.
   */
  function PriceInput(f: PriceField, previous: Option<real>, default: real): (p: real)
    ensures f.edit.Enter? ==> p == f.edit.entered
    ensures f.edit.Keep? && f.fetched.Some? ==> p == f.fetched.value
    ensures f.edit.Keep? && f.fetched.None? ==> p == ManualSeed(previous, default)
  {
    if f.fetched.Some? then NumberInput(f.fetched.value, f.edit)
    else NumberInput(ManualSeed(previous, default), f.edit)
  }

  /** The manual widget, used when the fetch failed, accepts its seed and the user's entry. */
  predicate PriceAllowed(f: PriceField, previous: Option<real>, default: real) {
    f.fetched.None? ==> ManualSeed(previous, default) >= MinManualPrice && EditAllowed(MinManualPrice, f.edit)
  }

  /**
   * A price field left untouched holds the live price when there is one,
   * otherwise the last session price, otherwise the documented default.
   */
  lemma UntouchedPriceField(f: PriceField, previous: Option<real>, default: real)
    requires f.edit.Keep?
    ensures f.fetched.Some? ==> PriceInput(f, previous, default) == f.fetched.value
    ensures f.fetched.None? && previous.Some? ==> PriceInput(f, previous, default) == previous.value
    ensures f.fetched.None? && previous.None? ==> PriceInput(f, previous, default) == default
  {
  }

  /** A failed fetch never leaves the form without a usable price: the manual one is positive. */
  lemma ManualPriceIsValid(f: PriceField, previous: Option<real>, default: real)
    requires f.fetched.None? && PriceAllowed(f, previous, default)
    ensures PriceInput(f, previous, default) >= MinManualPrice
    ensures ValidPrice(Some(PriceInput(f, previous, default)))
  {
  }

  /** One interaction: the mode picked in the radio and the inputs of that mode's form. */
  datatype Interaction =
    | GweiRun(eth: PriceField, rate: Edit, gwei: Edit, submitted: bool)
    | SatsRun(btc: PriceField, rate: Edit, sats: Edit, submitted: bool)
    | CrossRun(btc: PriceField, eth: PriceField, rate: Edit, direction: Direction, amount: Edit, submitted: bool)

  /** What an interaction shows below its form. */
  datatype Shown = NothingShown | FiatShown(fiat: FiatOutcome) | CrossShown(cross: CrossOutcome)

  function ModeOf(i: Interaction): Mode {
    match i
    case GweiRun(_, _, _, _) => GweiToUsdIdr
    case SatsRun(_, _, _, _) => SatsToUsdIdr
    case CrossRun(_, _, _, _, _, _) => SatsGweiConversion
  }

  /** The session key holding the cross form's amount in the given direction. */
  function AmountKey(d: Direction): (k: Key)
    ensures k in {SatsInputValKey, GweiInputValKey}
  {
    if d == FromSatoshis then SatsInputValKey else GweiInputValKey
  }

  /** The keys an interaction writes: the mode and the entries of its form. */
  function Written(i: Interaction): set<Key> {
    match i
    case GweiRun(_, _, _, _) => {SelectedConversionKey, EthPriceKey, UsdToIdrRateKey, GweiInputValKey}
    case SatsRun(_, _, _, _) => {SelectedConversionKey, BtcPriceKey, UsdToIdrRateKey, SatsInputValKey}
    case CrossRun(_, _, _, d, _, _) =>
      {SelectedConversionKey, BtcPriceKey, EthPriceKey, UsdToIdrRateKey, AmountKey(d)}
  }

  /** The price stored under `k`, `None` when there is none. */
  function PriceAt(m: map<Key, Value>, k: Key): Option<real> {
    if k in m && m[k].PriceValue? then m[k].price else None
  }

  /** The widgets of the interaction's form accept their seeds and the user's entries. */
  predicate RunAllowed(m: map<Key, Value>, i: Interaction) {
    EditAllowed(MinRate, i.rate) &&
    match i
    case GweiRun(eth, _, gwei, _) =>
      PriceAllowed(eth, PriceAt(m, EthPriceKey), DefaultEthPrice) && EditAllowed(MinAmount, gwei)
    case SatsRun(btc, _, sats, _) =>
      PriceAllowed(btc, PriceAt(m, BtcPriceKey), DefaultBtcPrice) && EditAllowed(MinAmount, sats)
    case CrossRun(btc, eth, _, _, amount, _) =>
      PriceAllowed(btc, PriceAt(m, BtcPriceKey), DefaultBtcPrice) &&
      PriceAllowed(eth, PriceAt(m, EthPriceKey), DefaultEthPrice) && EditAllowed(MinAmount, amount)
  }

  /** The number stored under `k`, 0 when there is none. */
  function NumberAt(m: map<Key, Value>, k: Key): real {
    if k in m && m[k].NumberValue? then m[k].number else 0.0
  }

  /** The session after a price widget stores its value under `k`. */
  function StoredPrice(m: map<Key, Value>, k: Key, f: PriceField, default: real): (r: map<Key, Value>)
    ensures r.Keys == m.Keys + {k}
    ensures PriceAt(r, k) == Some(PriceInput(f, PriceAt(m, k), default))
    ensures forall j {:trigger r[j]} | j in m && j != k :: r[j] == m[j]
  {
    m[k := PriceValue(Some(PriceInput(f, PriceAt(m, k), default)))]
  }

  /** The session after a number widget seeded from `k` stores its value under `k`. */
  function StoredNumber(m: map<Key, Value>, k: Key, edit: Edit): (r: map<Key, Value>)
    ensures r.Keys == m.Keys + {k}
    ensures NumberAt(r, k) == NumberInput(NumberAt(m, k), edit)
    ensures forall j {:trigger r[j]} | j in m && j != k :: r[j] == m[j]
  {
    m[k := NumberValue(NumberInput(NumberAt(m, k), edit))]
  }

  /** The session after the interaction's form has stored all its widget values, in script order. */
  function AfterForm(m: map<Key, Value>, i: Interaction): (r: map<Key, Value>)
    ensures m.Keys <= r.Keys <= m.Keys + Written(i)
    ensures Written(i) - {SelectedConversionKey} <= r.Keys
    ensures forall k {:trigger r[k]} | k in m && k !in Written(i) :: r[k] == m[k]
  {
    match i
    case GweiRun(eth, rate, gwei, _) =>
      var withPrice := StoredPrice(m, EthPriceKey, eth, DefaultEthPrice);
      var withRate := StoredNumber(withPrice, UsdToIdrRateKey, rate);
      StoredNumber(withRate, GweiInputValKey, gwei)
    case SatsRun(btc, rate, sats, _) =>
      var withPrice := StoredPrice(m, BtcPriceKey, btc, DefaultBtcPrice);
      var withRate := StoredNumber(withPrice, UsdToIdrRateKey, rate);
      StoredNumber(withRate, SatsInputValKey, sats)
    case CrossRun(btc, eth, rate, d, amount, _) =>
      var withBtc := StoredPrice(m, BtcPriceKey, btc, DefaultBtcPrice);
      var withPrices := StoredPrice(withBtc, EthPriceKey, eth, DefaultEthPrice);
      var withRate := StoredNumber(withPrices, UsdToIdrRateKey, rate);
      StoredNumber(withRate, AmountKey(d), amount)
  }

  /** The session after one rerun: initialise, record the picked mode, run that mode's form. */
  function Rerun(m: map<Key, Value>, i: Interaction): (r: map<Key, Value>)
    ensures Complete(r)
    ensures r[SelectedConversionKey] == ModeValue(ModeOf(i))
  {
    AfterForm(Initialized(m)[SelectedConversionKey := ModeValue(ModeOf(i))], i)
  }

  /** What a rerun shows, computed from the session it leaves behind. */
  function Display(m: map<Key, Value>, i: Interaction): (shown: Shown)
    ensures shown.NothingShown? <==> !i.submitted
    ensures shown.FiatShown? <==> i.submitted && !i.CrossRun?
    ensures shown.CrossShown? <==> i.submitted && i.CrossRun?
  {
    if !i.submitted then NothingShown
    else
      var rate := NumberAt(m, UsdToIdrRateKey);
      match i
      case GweiRun(_, _, _, _) =>
        FiatShown(GweiSubmit(PriceAt(m, EthPriceKey), rate, NumberAt(m, GweiInputValKey)))
      case SatsRun(_, _, _, _) =>
        FiatShown(SatsSubmit(PriceAt(m, BtcPriceKey), rate, NumberAt(m, SatsInputValKey)))
      case CrossRun(_, _, _, d, _, _) =>
        if d == FromSatoshis then
          CrossShown(SatsToGweiSubmit(PriceAt(m, BtcPriceKey), PriceAt(m, EthPriceKey), rate, NumberAt(m, SatsInputValKey)))
        else
          CrossShown(GweiToSatsSubmit(PriceAt(m, BtcPriceKey), PriceAt(m, EthPriceKey), rate, NumberAt(m, GweiInputValKey)))
  }

  /** Storing a price keeps the session complete and well-typed. */
  lemma StoredPriceValid(m: map<Key, Value>, k: Key, f: PriceField, default: real)
    requires Complete(m) && Consistent(m) && (k == EthPriceKey || k == BtcPriceKey)
    ensures Complete(StoredPrice(m, k, f, default)) && Consistent(StoredPrice(m, k, f, default))
  {
    var r := StoredPrice(m, k, f, default);
    forall j | j in r ensures Fits(j, r[j]) {
      if j != k {
        assert r[j] == m[j];
      }
    }
  }

  /** The minimum of the number widget that writes `k`. */
  function MinFor(k: Key): real {
    if k == UsdToIdrRateKey then MinRate else MinAmount
  }

  /** Storing a number the widget accepts keeps the session complete and well-typed. */
  lemma StoredNumberValid(m: map<Key, Value>, k: Key, edit: Edit)
    requires Complete(m) && Consistent(m)
    requires k == UsdToIdrRateKey || k == GweiInputValKey || k == SatsInputValKey
    requires EditAllowed(MinFor(k), edit)
    ensures Complete(StoredNumber(m, k, edit)) && Consistent(StoredNumber(m, k, edit))
  {
    var r := StoredNumber(m, k, edit);
    assert Fits(k, m[k]);
    forall j | j in r ensures Fits(j, r[j]) {
      if j != k {
        assert r[j] == m[j];
      }
    }
  }

  /** A rerun whose widgets accept their inputs leaves a complete, well-typed session. */
  lemma RerunValid(m: map<Key, Value>, i: Interaction)
    requires Consistent(m) && RunAllowed(Initialized(m), i)
    ensures Complete(Rerun(m, i)) && Consistent(Rerun(m, i))
  {
    InitializedValid(m);
    var s := Initialized(m)[SelectedConversionKey := ModeValue(ModeOf(i))];
    assert Complete(s) && Consistent(s) by {
      forall j | j in s ensures Fits(j, s[j]) {
        if j != SelectedConversionKey {
          assert s[j] == Initialized(m)[j];
        }
      }
    }
    match i
    case GweiRun(eth, rate, gwei, _) =>
      var s1 := StoredPrice(s, EthPriceKey, eth, DefaultEthPrice);
      StoredPriceValid(s, EthPriceKey, eth, DefaultEthPrice);
      var s2 := StoredNumber(s1, UsdToIdrRateKey, rate);
      StoredNumberValid(s1, UsdToIdrRateKey, rate);
      StoredNumberValid(s2, GweiInputValKey, gwei);
    case SatsRun(btc, rate, sats, _) =>
      var s1 := StoredPrice(s, BtcPriceKey, btc, DefaultBtcPrice);
      StoredPriceValid(s, BtcPriceKey, btc, DefaultBtcPrice);
      var s2 := StoredNumber(s1, UsdToIdrRateKey, rate);
      StoredNumberValid(s1, UsdToIdrRateKey, rate);
      StoredNumberValid(s2, SatsInputValKey, sats);
    case CrossRun(btc, eth, rate, d, amount, _) =>
      var s1 := StoredPrice(s, BtcPriceKey, btc, DefaultBtcPrice);
      StoredPriceValid(s, BtcPriceKey, btc, DefaultBtcPrice);
      var s2 := StoredPrice(s1, EthPriceKey, eth, DefaultEthPrice);
      StoredPriceValid(s1, EthPriceKey, eth, DefaultEthPrice);
      var s3 := StoredNumber(s2, UsdToIdrRateKey, rate);
      StoredNumberValid(s2, UsdToIdrRateKey, rate);
      StoredNumberValid(s3, AmountKey(d), amount);
  }

  /** A rerun writes the mode and its form's keys; every other key keeps its initialised value. */
  lemma RerunWritesOnly(m: map<Key, Value>, i: Interaction, k: Key)
    requires k !in Written(i)
    ensures k in Rerun(m, i) && Rerun(m, i)[k] == Initialized(m)[k]
  {
    KeyInAllKeys(k);
  }

  /** The price a form stores under `k` is that of its price field, seeded from the price stored before. */
  lemma AfterFormPriceAt(m: map<Key, Value>, i: Interaction, k: Key, f: PriceField, default: real)
    requires (k == EthPriceKey && (i.GweiRun? || i.CrossRun?) && f == i.eth && default == DefaultEthPrice) ||
             (k == BtcPriceKey && (i.SatsRun? || i.CrossRun?) && f == i.btc && default == DefaultBtcPrice)
    ensures PriceAt(AfterForm(m, i), k) == Some(PriceInput(f, PriceAt(m, k), default))
  {
    match i
    case GweiRun(eth, rate, gwei, _) =>
      var s1 := StoredPrice(m, EthPriceKey, eth, DefaultEthPrice);
      var s2 := StoredNumber(s1, UsdToIdrRateKey, rate);
      assert PriceAt(s2, k) == PriceAt(s1, k);
    case SatsRun(btc, rate, sats, _) =>
      var s1 := StoredPrice(m, BtcPriceKey, btc, DefaultBtcPrice);
      var s2 := StoredNumber(s1, UsdToIdrRateKey, rate);
      assert PriceAt(s2, k) == PriceAt(s1, k);
    case CrossRun(btc, eth, rate, d, amount, _) =>
      var s1 := StoredPrice(m, BtcPriceKey, btc, DefaultBtcPrice);
      assert PriceAt(s1, EthPriceKey) == PriceAt(m, EthPriceKey);
      var s2 := StoredPrice(s1, EthPriceKey, eth, DefaultEthPrice);
      assert PriceAt(s2, BtcPriceKey) == PriceAt(s1, BtcPriceKey);
      var s3 := StoredNumber(s2, UsdToIdrRateKey, rate);
      assert PriceAt(s3, k) == PriceAt(s2, k);
      assert PriceAt(StoredNumber(s3, AmountKey(d), amount), k) == PriceAt(s3, k);
  }

  /** The price a rerun stores under `k` is that of the price field, seeded from the initialised session. */
  lemma RerunPriceAt(m: map<Key, Value>, i: Interaction, k: Key, f: PriceField, default: real)
    requires (k == EthPriceKey && (i.GweiRun? || i.CrossRun?) && f == i.eth && default == DefaultEthPrice) ||
             (k == BtcPriceKey && (i.SatsRun? || i.CrossRun?) && f == i.btc && default == DefaultBtcPrice)
    ensures PriceAt(Rerun(m, i), k) == Some(PriceInput(f, PriceAt(Initialized(m), k), default))
  {
    var s := Initialized(m)[SelectedConversionKey := ModeValue(ModeOf(i))];
    assert PriceAt(s, k) == PriceAt(Initialized(m), k);
    AfterFormPriceAt(s, i, k, f, default);
  }

  /**
   * A failed fetch never makes a submission fail on the price: the manual
   * entry that replaces the live price always passes the price check.
   */
  lemma FailedFetchNeverRejectsPrice(m: map<Key, Value>, i: Interaction)
    requires RunAllowed(Initialized(m), i)
    ensures i.GweiRun? && i.eth.fetched.None? ==> Display(Rerun(m, i), i) != FiatShown(PriceInvalid)
    ensures i.SatsRun? && i.btc.fetched.None? ==> Display(Rerun(m, i), i) != FiatShown(PriceInvalid)
    ensures i.CrossRun? && i.btc.fetched.None? && i.eth.fetched.None? ==>
      Display(Rerun(m, i), i) != CrossShown(PricesInvalid)
  {
    var init := Initialized(m);
    if i.GweiRun? || i.CrossRun? {
      RerunPriceAt(m, i, EthPriceKey, i.eth, DefaultEthPrice);
      if i.eth.fetched.None? {
        ManualPriceIsValid(i.eth, PriceAt(init, EthPriceKey), DefaultEthPrice);
      }
    }
    if i.SatsRun? || i.CrossRun? {
      RerunPriceAt(m, i, BtcPriceKey, i.btc, DefaultBtcPrice);
      if i.btc.fetched.None? {
        ManualPriceIsValid(i.btc, PriceAt(init, BtcPriceKey), DefaultBtcPrice);
      }
    }
  }

  /** After a rerun that keeps the session valid, every result shown has IDR at least USD, both positive. */
  lemma RerunIdrNeverBelowUsd(m: map<Key, Value>, i: Interaction)
    requires Consistent(m) && RunAllowed(Initialized(m), i)
    ensures var shown := Display(Rerun(m, i), i);
            (shown.FiatShown? && shown.fiat.Fiat? ==> shown.fiat.idr >= shown.fiat.usd > 0.0) &&
            (shown.CrossShown? && shown.cross.Cross? ==> shown.cross.idr >= shown.cross.usd > 0.0)
  {
    RerunValid(m, i);
    var r := Rerun(m, i);
    assert Fits(UsdToIdrRateKey, r[UsdToIdrRateKey]);
    assert NumberAt(r, UsdToIdrRateKey) >= MinRate;
  }

  /** The session after a sequence of reruns. */
  function Runs(m: map<Key, Value>, steps: seq<Interaction>): map<Key, Value>
    decreases |steps|
  {
    if |steps| == 0 then m else Runs(Rerun(m, steps[0]), steps[1..])
  }

  /** Every rerun of the sequence has widgets that accept their inputs. */
  predicate AllAllowed(m: map<Key, Value>, steps: seq<Interaction>)
    decreases |steps|
  {
    |steps| == 0 || (RunAllowed(Initialized(m), steps[0]) && AllAllowed(Rerun(m, steps[0]), steps[1..]))
  }

  /** However many reruns a browser session goes through, its stored values stay well-typed. */
  lemma {:induction false} RunsStayConsistent(m: map<Key, Value>, steps: seq<Interaction>)
    requires Consistent(m) && AllAllowed(m, steps)
    ensures Consistent(Runs(m, steps))
    decreases |steps|
  {
    if |steps| > 0 {
      RerunValid(m, steps[0]);
      RunsStayConsistent(Rerun(m, steps[0]), steps[1..]);
    }
  }

  /**
   * In every rerun of a browser session, a result in IDR is never below the
   * same result in USD, and both are positive: the rate widget keeps the
   * stored rate at 1 or more across reruns.
   */
  lemma IdrNeverBelowUsd(steps: seq<Interaction>, i: Interaction)
    requires AllAllowed(map[], steps) && RunAllowed(Initialized(Runs(map[], steps)), i)
    ensures var shown := Display(Rerun(Runs(map[], steps), i), i);
            (shown.FiatShown? && shown.fiat.Fiat? ==> shown.fiat.idr >= shown.fiat.usd > 0.0) &&
            (shown.CrossShown? && shown.cross.Cross? ==> shown.cross.idr >= shown.cross.usd > 0.0)
  {
    RunsStayConsistent(map[], steps);
    RerunIdrNeverBelowUsd(Runs(map[], steps), i);
  }

  /**
   * The rate stored after a sequence of reruns, starting from `seed`: every
   * form's rate widget is seeded from the stored rate and stores what it
   * returns, so the rate carries over from rerun to rerun and from form to form.
   */
  function RateAfter(seed: real, steps: seq<Interaction>): (r: real)
    ensures r == seed || exists j :: 0 <= j < |steps| && steps[j].rate.Enter? && r == steps[j].rate.entered
    decreases |steps|
  {
    if |steps| == 0 then seed else RateAfter(NumberInput(seed, steps[0].rate), steps[1..])
  }

  /** Every rate edit of the sequence is one the rate widget accepts. */
  predicate RatesAllowed(steps: seq<Interaction>) {
    forall j :: 0 <= j < |steps| ==> EditAllowed(MinRate, steps[j].rate)
  }

  /** The rate widget's `min_value` keeps the stored rate at 1 or more, however many reruns follow. */
  lemma {:induction false} RateStaysAtLeastMinimum(seed: real, steps: seq<Interaction>)
    requires seed >= MinRate && RatesAllowed(steps)
    ensures RateAfter(seed, steps) >= MinRate
    decreases |steps|
  {
    if |steps| > 0 {
      RateStaysAtLeastMinimum(NumberInput(seed, steps[0].rate), steps[1..]);
    }
  }

  /** Reruns that leave the rate widget alone keep the stored rate. */
  lemma {:induction false} UntouchedRateKeepsSeed(seed: real, steps: seq<Interaction>)
    requires forall j :: 0 <= j < |steps| ==> steps[j].rate.Keep?
    ensures RateAfter(seed, steps) == seed
    decreases |steps|
  {
    if |steps| > 0 {
      UntouchedRateKeepsSeed(seed, steps[1..]);
    }
  }

  /** The stored rate is the last one the user entered, in whichever form. */
  lemma {:induction false} LastEnteredRateWins(seed: real, steps: seq<Interaction>, j: nat)
    requires j < |steps| && steps[j].rate.Enter?
    requires forall l :: j < l < |steps| ==> steps[l].rate.Keep?
    ensures RateAfter(seed, steps) == steps[j].rate.entered
    decreases |steps|
  {
    if j == 0 {
      UntouchedRateKeepsSeed(steps[0].rate.entered, steps[1..]);
    } else {
      LastEnteredRateWins(NumberInput(seed, steps[0].rate), steps[1..], j - 1);
    }
  }

  /** One rerun stores the rate widget's value, seeded from the initialised session. */
  lemma RerunRate(m: map<Key, Value>, i: Interaction)
    ensures UsdToIdrRateKey in Rerun(m, i)
    ensures NumberAt(Rerun(m, i), UsdToIdrRateKey) == NumberInput(NumberAt(Initialized(m), UsdToIdrRateKey), i.rate)
  {
  }

  /** After one or more reruns, the stored rate is `RateAfter` of the initialised rate. */
  lemma {:induction false} RunsRate(m: map<Key, Value>, steps: seq<Interaction>)
    requires |steps| > 0
    ensures NumberAt(Runs(m, steps), UsdToIdrRateKey) == RateAfter(NumberAt(Initialized(m), UsdToIdrRateKey), steps)
    decreases |steps|
  {
    var m1 := Rerun(m, steps[0]);
    RerunRate(m, steps[0]);
    if |steps| > 1 {
      InitializedAt(m1, UsdToIdrRateKey);
      RunsRate(m1, steps[1..]);
    }
  }

  /**
   * In a browser session that starts empty, the stored rate is 16200.0 until
   * the user enters another one, then the last rate entered.
   */
  lemma SessionRate(steps: seq<Interaction>)
    requires |steps| > 0
    ensures NumberAt(Runs(map[], steps), UsdToIdrRateKey) == RateAfter(DefaultUsdToIdr, steps)
  {
    InitializedAt(map[], UsdToIdrRateKey);
    RunsRate(map[], steps);
  }

  /** The session state of one browser session. */
  class SessionState {
    var entries: map<Key, Value>

    /** A new browser session starts with no keys. */
    constructor ()
      ensures entries == map[]
    {
      entries := map[];
    }

    predicate Valid()
      reads this
    {
      Complete(entries) && Consistent(entries)
    }

    function Selected(): Mode
      reads this
      requires Valid()
    {
      entries[SelectedConversionKey].mode
    }

    function EthPrice(): Option<real>
      reads this
    {
      PriceAt(entries, EthPriceKey)
    }

    function BtcPrice(): Option<real>
      reads this
    {
      PriceAt(entries, BtcPriceKey)
    }

    function Rate(): real
      reads this
    {
      NumberAt(entries, UsdToIdrRateKey)
    }

    function GweiInput(): real
      reads this
    {
      NumberAt(entries, GweiInputValKey)
    }

    function SatsInput(): real
      reads this
    {
      NumberAt(entries, SatsInputValKey)
    }

    /** First-run initialisation: each key is set only when it is missing. */
    method Init()
      requires Consistent(entries)
      modifies this
      ensures Valid()
      ensures entries == Initialized(old(entries))
    {
      ghost var before := entries;
      InitKey(SelectedConversionKey);
      InitKey(EthPriceKey);
      InitKey(BtcPriceKey);
      InitKey(UsdToIdrRateKey);
      InitKey(GweiInputValKey);
      InitKey(SatsInputValKey);
      InitializedValid(before);
    }

    /** One `if '<key>' not in st.session_state` step of the initialisation. */
    method InitKey(k: Key)
      requires Consistent(entries)
      modifies this
      ensures Consistent(entries)
      ensures entries == WithDefault(old(entries), k)
    {
      if k !in entries {
        entries := entries[k := Default(k)];
      }
    }

    /** The conversion-type radio stores the mode the user picked. */
    method ChooseConversion(picked: Mode)
      requires Valid()
      modifies this
      ensures Valid()
      ensures entries == old(entries)[SelectedConversionKey := ModeValue(picked)]
      ensures Selected() == picked
    {
      entries := entries[SelectedConversionKey := ModeValue(picked)];
      assert Consistent(entries) by {
        forall j | j in entries ensures Fits(j, entries[j]) {
          if j != SelectedConversionKey {
            assert entries[j] == old(entries)[j];
          }
        }
      }
    }

    /** The submit block of the Gwei-to-USD/IDR form, on the stored entries. */
    method SubmitGwei() returns (o: FiatOutcome)
      ensures o == GweiSubmit(EthPrice(), Rate(), GweiInput())
    {
      var price := EthPrice();
      if price.None? || price.value <= 0.0 {
        o := PriceInvalid;
      } else if GweiInput() <= 0.0 {
        o := AmountInvalid;
      } else {
        var ethAmount := GweiToEth(GweiInput());
        var usd := ethAmount * price.value;
        var idr := usd * Rate();
        o := Fiat(ethAmount, usd, idr);
      }
    }

    /** The submit block of the Sats-to-USD/IDR form, on the stored entries. */
    method SubmitSats() returns (o: FiatOutcome)
      ensures o == SatsSubmit(BtcPrice(), Rate(), SatsInput())
    {
      var price := BtcPrice();
      if price.None? || price.value <= 0.0 {
        o := PriceInvalid;
      } else if SatsInput() <= 0.0 {
        o := AmountInvalid;
      } else {
        var btcAmount := SatsToBtc(SatsInput());
        var usd := btcAmount * price.value;
        var idr := usd * Rate();
        o := Fiat(btcAmount, usd, idr);
      }
    }

    /** The submit block of the cross form, Satoshis to Gwei, with its `ZeroDivisionError` handler. */
    method SubmitSatsToGwei() returns (o: CrossOutcome)
      ensures o == SatsToGweiSubmit(BtcPrice(), EthPrice(), Rate(), SatsInput())
    {
      var btcPrice, ethPrice := BtcPrice(), EthPrice();
      if (btcPrice.None? || btcPrice.value <= 0.0) || (ethPrice.None? || ethPrice.value <= 0.0) {
        o := PricesInvalid;
      } else if SatsInput() <= 0.0 {
        o := CrossAmountInvalid;
      } else {
        var btcAmount := SatsToBtc(SatsInput());
        var usd := btcAmount * btcPrice.value;
        var idr := usd * Rate();
        var ethAmount := Divide(usd, ethPrice.value);
        if ethAmount.None? {
          o := ZeroPriceError;
        } else {
          o := Cross(usd, idr, EthToGwei(ethAmount.value));
        }
      }
    }

    /** The submit block of the cross form, Gwei to Satoshis, with its `ZeroDivisionError` handler. */
    method SubmitGweiToSats() returns (o: CrossOutcome)
      ensures o == GweiToSatsSubmit(BtcPrice(), EthPrice(), Rate(), GweiInput())
    {
      var btcPrice, ethPrice := BtcPrice(), EthPrice();
      if (btcPrice.None? || btcPrice.value <= 0.0) || (ethPrice.None? || ethPrice.value <= 0.0) {
        o := PricesInvalid;
      } else if GweiInput() <= 0.0 {
        o := CrossAmountInvalid;
      } else {
        var ethAmount := GweiToEth(GweiInput());
        var usd := ethAmount * ethPrice.value;
        var idr := usd * Rate();
        var btcAmount := Divide(usd, btcPrice.value);
        if btcAmount.None? {
          o := ZeroPriceError;
        } else {
          o := Cross(usd, idr, BtcToSats(btcAmount.value));
        }
      }
    }

    /**
     * Stores a price widget's value under `k`: the live price, editable,
     * when the fetch succeeded, else the manual entry seeded from the last
     * stored price or `default`.
     */
    method StorePrice(k: Key, f: PriceField, default: real)
      requires Valid()
      requires k == EthPriceKey || k == BtcPriceKey
      requires PriceAllowed(f, PriceAt(entries, k), default)
      modifies this
      ensures Valid()
      ensures entries == StoredPrice(old(entries), k, f, default)
      ensures f.fetched.None? ==> PriceAt(entries, k).value >= MinManualPrice
    {
      if f.fetched.Some? {
        entries := entries[k := PriceValue(Some(NumberInput(f.fetched.value, f.edit)))];
      } else {
        var seed := ManualSeed(PriceAt(entries, k), default);
        entries := entries[k := PriceValue(Some(NumberInput(seed, f.edit)))];
      }
      StoredPriceValid(old(entries), k, f, default);
    }

    /** Stores a rate or amount widget's value under `k`, seeded from the value stored there. */
    method StoreNumber(k: Key, edit: Edit)
      requires Valid()
      requires k == UsdToIdrRateKey || k == GweiInputValKey || k == SatsInputValKey
      requires EditAllowed(MinFor(k), edit)
      modifies this
      ensures Valid()
      ensures entries == StoredNumber(old(entries), k, edit)
    {
      entries := entries[k := NumberValue(NumberInput(NumberAt(entries, k), edit))];
      StoredNumberValid(old(entries), k, edit);
    }

    /** The Gwei-to-USD/IDR form: store the widget values, then apply the submit rule. */
    method GweiForm(eth: PriceField, rateEdit: Edit, gweiEdit: Edit, submitted: bool)
      returns (shown: Option<FiatOutcome>)
      requires Valid()
      requires PriceAllowed(eth, EthPrice(), DefaultEthPrice)
      requires EditAllowed(MinRate, rateEdit) && EditAllowed(MinAmount, gweiEdit)
      modifies this
      ensures Valid()
      ensures entries == AfterForm(old(entries), GweiRun(eth, rateEdit, gweiEdit, submitted))
      ensures shown == if submitted then Some(GweiSubmit(EthPrice(), Rate(), GweiInput())) else None
      ensures eth.fetched.None? ==> shown != Some(PriceInvalid)
    {
      StorePrice(EthPriceKey, eth, DefaultEthPrice);
      ghost var price := EthPrice();
      StoreNumber(UsdToIdrRateKey, rateEdit);
      StoreNumber(GweiInputValKey, gweiEdit);
      assert EthPrice() == price;
      shown := None;
      if submitted {
        var o := SubmitGwei();
        shown := Some(o);
      }
    }

    /** The Sats-to-USD/IDR form: store the widget values, then apply the submit rule. */
    method SatsForm(btc: PriceField, rateEdit: Edit, satsEdit: Edit, submitted: bool)
      returns (shown: Option<FiatOutcome>)
      requires Valid()
      requires PriceAllowed(btc, BtcPrice(), DefaultBtcPrice)
      requires EditAllowed(MinRate, rateEdit) && EditAllowed(MinAmount, satsEdit)
      modifies this
      ensures Valid()
      ensures entries == AfterForm(old(entries), SatsRun(btc, rateEdit, satsEdit, submitted))
      ensures shown == if submitted then Some(SatsSubmit(BtcPrice(), Rate(), SatsInput())) else None
      ensures btc.fetched.None? ==> shown != Some(PriceInvalid)
    {
      StorePrice(BtcPriceKey, btc, DefaultBtcPrice);
      ghost var price := BtcPrice();
      StoreNumber(UsdToIdrRateKey, rateEdit);
      StoreNumber(SatsInputValKey, satsEdit);
      assert BtcPrice() == price;
      shown := None;
      if submitted {
        var o := SubmitSats();
        shown := Some(o);
      }
    }

    /**
     * The Sats/Gwei cross form: store both prices, the rate and the amount
     * of the chosen direction, then apply that direction's submit rule.
     */
    method CrossForm(btc: PriceField, eth: PriceField, rateEdit: Edit, direction: Direction,
                     amountEdit: Edit, submitted: bool)
      returns (shown: Option<CrossOutcome>)
      requires Valid()
      requires PriceAllowed(btc, BtcPrice(), DefaultBtcPrice)
      requires PriceAllowed(eth, EthPrice(), DefaultEthPrice)
      requires EditAllowed(MinRate, rateEdit) && EditAllowed(MinAmount, amountEdit)
      modifies this
      ensures Valid()
      ensures entries == AfterForm(old(entries), CrossRun(btc, eth, rateEdit, direction, amountEdit, submitted))
      ensures shown ==
        if !submitted then None
        else if direction == FromSatoshis then Some(SatsToGweiSubmit(BtcPrice(), EthPrice(), Rate(), SatsInput()))
        else Some(GweiToSatsSubmit(BtcPrice(), EthPrice(), Rate(), GweiInput()))
      ensures btc.fetched.None? && eth.fetched.None? ==> shown != Some(PricesInvalid)
      ensures shown != Some(ZeroPriceError)
    {
      ghost var i := CrossRun(btc, eth, rateEdit, direction, amountEdit, submitted);
      ghost var before := entries;
      StorePrice(BtcPriceKey, btc, DefaultBtcPrice);
      StorePrice(EthPriceKey, eth, DefaultEthPrice);
      StoreNumber(UsdToIdrRateKey, rateEdit);
      StoreNumber(AmountKey(direction), amountEdit);
      assert entries == AfterForm(before, i);
      AfterFormPriceAt(before, i, BtcPriceKey, btc, DefaultBtcPrice);
      AfterFormPriceAt(before, i, EthPriceKey, eth, DefaultEthPrice);
      if btc.fetched.None? && eth.fetched.None? {
        ManualPriceIsValid(btc, PriceAt(before, BtcPriceKey), DefaultBtcPrice);
        ManualPriceIsValid(eth, PriceAt(before, EthPriceKey), DefaultEthPrice);
        assert ValidPrice(BtcPrice()) && ValidPrice(EthPrice());
      }
      shown := None;
      if submitted {
        var o;
        if direction == FromSatoshis {
          o := SubmitSatsToGwei();
        } else {
          o := SubmitGweiToSats();
        }
        shown := Some(o);
      }
    }

    /**
     * One rerun of the script: initialise, store the picked mode, then run
     * that mode's form.
     */
    method Run(i: Interaction) returns (shown: Shown)
      requires Consistent(entries)
      requires RunAllowed(Initialized(entries), i)
      modifies this
      ensures Valid()
      ensures entries == Rerun(old(entries), i)
      ensures Selected() == ModeOf(i)
      ensures shown == Display(entries, i)
    {
      Init();
      ChooseConversion(ModeOf(i));
      assert EthPrice() == PriceAt(Initialized(old(entries)), EthPriceKey);
      assert BtcPrice() == PriceAt(Initialized(old(entries)), BtcPriceKey);
      match i
      case GweiRun(eth, rateEdit, gweiEdit, submitted) =>
        var o := GweiForm(eth, rateEdit, gweiEdit, submitted);
        shown := if o.Some? then FiatShown(o.value) else NothingShown;
      case SatsRun(btc, rateEdit, satsEdit, submitted) =>
        var o := SatsForm(btc, rateEdit, satsEdit, submitted);
        shown := if o.Some? then FiatShown(o.value) else NothingShown;
      case CrossRun(btc, eth, rateEdit, direction, amountEdit, submitted) =>
        var o := CrossForm(btc, eth, rateEdit, direction, amountEdit, submitted);
        shown := if o.Some? then CrossShown(o.value) else NothingShown;
    }
  }
}
