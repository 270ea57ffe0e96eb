/** The overrides an application passes to change the security options: named settings of different types. */
module Configuration {
  import opened Cidr
  import opened Admission
  import opened Wrappers

  const UINT32_MAX: nat := 0xFFFF_FFFF

  /** A value as the application passes it. A network list that holds anything but strings has no items. */
  datatype Setting = Number(number: real) | Flag(flag: bool) | Networks(items: Option<seq<Item>>) | OtherType

  /** An override; its key is missing if it was an integer. */
  datatype Override = Override(key: Option<string>, setting: Setting)

  /** Options under change, with the network lists that are to replace the present ones. */
  datatype Draft = Draft(options: Options, allowed: Option<seq<Item>>, denied: Option<seq<Item>>)

  datatype Name =
    | Enabled | AllowedNetworks | DeniedNetworks
    | PerSourceRate | GlobalRate | WhoIsRate | WriteRate
    | FloodWindow | BlockDuration | DuplicateWindow | SourceTtl | LogInterval
    | PerSourceBurst | GlobalBurst | WhoIsBurst | WriteBurst | FloodViolations | MaxSources

  function NameOf(key: string): Option<Name> {
    if key == "enabled" then Some(Enabled)
    else if key == "allowed_networks" then Some(AllowedNetworks)
    else if key == "denied_networks" then Some(DeniedNetworks)
    else if key == "per_source_rate" then Some(PerSourceRate)
    else if key == "per_source_burst" then Some(PerSourceBurst)
    else if key == "global_rate" then Some(GlobalRate)
    else if key == "global_burst" then Some(GlobalBurst)
    else if key == "who_is_rate" then Some(WhoIsRate)
    else if key == "who_is_burst" then Some(WhoIsBurst)
    else if key == "write_rate" then Some(WriteRate)
    else if key == "write_burst" then Some(WriteBurst)
    else if key == "flood_violations" then Some(FloodViolations)
    else if key == "flood_window_seconds" then Some(FloodWindow)
    else if key == "block_duration_seconds" then Some(BlockDuration)
    else if key == "duplicate_window_seconds" then Some(DuplicateWindow)
    else if key == "max_sources" then Some(MaxSources)
    else if key == "source_ttl_seconds" then Some(SourceTtl)
    else if key == "log_interval_seconds" then Some(LogInterval)
    else None
  }

  predicate Numeric(n: Name) {
    !n.Enabled? && !n.AllowedNetworks? && !n.DeniedNetworks?
  }

  predicate Counting(n: Name) {
    n in {PerSourceBurst, GlobalBurst, WhoIsBurst, WriteBurst, FloodViolations, MaxSources}
  }

  /** Counts are whole numbers from 1 up that fit 32 bits; anything else becomes 0, which no option allows. */
  function Count(number: real): nat {
    if 0.0 < number <= UINT32_MAX as real && number.Floor as real == number then number.Floor else 0
  }

  function SetNumber(o: Options, n: Name, number: real): Options
    requires Numeric(n)
  {
    match n
    case PerSourceRate => o.(perSourceRate := number)
    case PerSourceBurst => o.(perSourceBurst := Count(number))
    case GlobalRate => o.(globalRate := number)
    case GlobalBurst => o.(globalBurst := Count(number))
    case WhoIsRate => o.(whoIsRate := number)
    case WhoIsBurst => o.(whoIsBurst := Count(number))
    case WriteRate => o.(writeRate := number)
    case WriteBurst => o.(writeBurst := Count(number))
    case FloodViolations => o.(floodViolations := Count(number))
    case FloodWindow => o.(floodWindow := number)
    case BlockDuration => o.(blockDuration := number)
    case DuplicateWindow => o.(duplicateWindow := number)
    case MaxSources => o.(maxSources := Count(number))
    case SourceTtl => o.(sourceTtl := number)
    case LogInterval => o.(logInterval := number)
  }

  /** One override, or its refusal. */
  function Apply(d: Draft, v: Override): Option<Draft> {
    match v.key
    case None => None
    case Some(key) =>
      match NameOf(key)
      case None => None
      case Some(Enabled) =>
        if v.setting.Flag? then Some(d.(options := d.options.(enabled := v.setting.flag))) else None
      case Some(AllowedNetworks) =>
        if v.setting.Networks? && v.setting.items.Some? then Some(d.(allowed := v.setting.items)) else None
      case Some(DeniedNetworks) =>
        if v.setting.Networks? && v.setting.items.Some? then Some(d.(denied := v.setting.items)) else None
      case Some(n) =>
        if v.setting.Number? then Some(d.(options := SetNumber(d.options, n, v.setting.number))) else None
  }

  function Applied(o: Options, vs: seq<Override>): Option<Draft> {
    if vs == [] then Some(Draft(o, None, None))
    else
      match Applied(o, vs[..|vs| - 1])
      case Some(d) => Apply(d, vs[|vs| - 1])
      case None => None
  }

  predicate Parses(items: seq<Item>) {
    |items| <= MAX_NETWORKS && forall i :: 0 <= i < |items| ==> WellFormed(items[i])
  }

  function Parsed(items: seq<Item>): (r: seq<Network>)
    requires Parses(items)
  {
    seq(|items|, i requires 0 <= i < |items| => Parse(items[i]))
  }

  predicate Acceptable(d: Draft) {
    && ValidOptions(d.options)
    && (d.allowed.Some? ==> Parses(d.allowed.value)) && (d.denied.Some? ==> Parses(d.denied.value))
  }

  function Final(d: Draft): Options
    requires Acceptable(d)
  {
    d.options.(allowed := if d.allowed.Some? then Parsed(d.allowed.value) else d.options.allowed,
               denied := if d.denied.Some? then Parsed(d.denied.value) else d.options.denied)
  }

  /** The options that the overrides make of `o`, if they are not refused. */
  function Proposed(o: Options, vs: seq<Override>): (r: Option<Options>)
    ensures r.Some? ==> ValidOptions(r.value)
  {
    match Applied(o, vs)
    case Some(d) => if Acceptable(d) then Some(Final(d)) else None
    case None => None
  }

  method Propose(o: Options, vs: seq<Override>) returns (r: Option<Options>)
    ensures r == Proposed(o, vs)
  {
    hide ValidOptions, Apply;
    var d := Draft(o, None, None);
    for i := 0 to |vs|
      invariant Applied(o, vs[..i]) == Some(d)
    {
      assert vs[..i + 1][..i] == vs[..i];
      var next := Apply(d, vs[i]);
      if next.None? {
        RefusedEarly(o, vs, i + 1);
        return None;
      }
      d := next.value;
    }
    assert vs[..|vs|] == vs;
    if !ValidOptions(d.options) {
      return None;
    }
    var n := d.options;
    if d.allowed.Some? {
      var list := ParseList(d.allowed.value);
      if list.None? {
        return None;
      }
      assert list.value == Parsed(d.allowed.value);
      n := n.(allowed := list.value);
    }
    if d.denied.Some? {
      var list := ParseList(d.denied.value);
      if list.None? {
        return None;
      }
      assert list.value == Parsed(d.denied.value);
      n := n.(denied := list.value);
    }
    return Some(n);
  }

  lemma {:induction false} RefusedEarly(o: Options, vs: seq<Override>, n: nat)
    requires n <= |vs| && Applied(o, vs[..n]) == None
    ensures Applied(o, vs) == None
    decreases |vs| - n
  {
    hide Apply;
    if n < |vs| {
      assert vs[..n + 1][..n] == vs[..n];
      RefusedEarly(o, vs, n + 1);
    } else {
      assert vs[..n] == vs;
    }
  }

  /** The override names an option and has a value of its type. */
  predicate Fits(v: Override) {
    v.key.Some? &&
    match NameOf(v.key.value)
    case None => false
    case Some(Enabled) => v.setting.Flag?
    case Some(n) => if Numeric(n) then v.setting.Number? else v.setting.Networks? && v.setting.items.Some?
  }

  lemma ApplyIff(d: Draft, v: Override)
    ensures Apply(d, v).Some? <==> Fits(v)
  {
    hide NameOf;
  }

  /** Overrides are refused for their names or types exactly if one of them does not fit. */
  lemma {:induction false} AppliedIff(o: Options, vs: seq<Override>)
    ensures Applied(o, vs).Some? <==> forall i :: 0 <= i < |vs| ==> Fits(vs[i])
  {
    hide Apply, Fits;
    if vs != [] {
      var front := vs[..|vs| - 1];
      AppliedIff(o, front);
      assert forall i :: 0 <= i < |front| ==> front[i] == vs[i];
      if Applied(o, front).Some? {
        ApplyIff(Applied(o, front).value, vs[|vs| - 1]);
      }
    }
  }

  /** The value of a numeric option. */
  function Value(o: Options, n: Name): real
    requires Numeric(n)
  {
    match n
    case PerSourceRate => o.perSourceRate
    case PerSourceBurst => o.perSourceBurst as real
    case GlobalRate => o.globalRate
    case GlobalBurst => o.globalBurst as real
    case WhoIsRate => o.whoIsRate
    case WhoIsBurst => o.whoIsBurst as real
    case WriteRate => o.writeRate
    case WriteBurst => o.writeBurst as real
    case FloodViolations => o.floodViolations as real
    case FloodWindow => o.floodWindow
    case BlockDuration => o.blockDuration
    case DuplicateWindow => o.duplicateWindow
    case MaxSources => o.maxSources as real
    case SourceTtl => o.sourceTtl
    case LogInterval => o.logInterval
  }

  predicate Gives(v: Override, n: Name) {
    v.key.Some? && NameOf(v.key.value) == Some(n) && v.setting.Number?
  }

  /** The last override of an option wins; without one the present value stays. */
  function Wanted(o: Options, vs: seq<Override>, n: Name): real
    requires Numeric(n)
  {
    if vs == [] then Value(o, n)
    else
      var last := vs[|vs| - 1];
      if Gives(last, n) then (if Counting(n) then Count(last.setting.number) as real else last.setting.number)
      else Wanted(o, vs[..|vs| - 1], n)
  }

  lemma SetNumberSets(o: Options, m: Name, number: real, n: Name)
    requires Numeric(m) && Numeric(n)
    ensures Value(SetNumber(o, m, number), n)
            == if m != n then Value(o, n) else if Counting(n) then Count(number) as real else number
  {
    hide Count;
  }

  lemma FlagKeeps(o: Options, flag: bool, n: Name)
    requires Numeric(n)
    ensures Value(o.(enabled := flag), n) == Value(o, n)
  {
  }

  lemma ApplySets(d: Draft, v: Override, n: Name)
    requires Numeric(n) && Fits(v)
    ensures Apply(d, v).Some?
    ensures Value(Apply(d, v).value.options, n)
            == if Gives(v, n) then (if Counting(n) then Count(v.setting.number) as real else v.setting.number)
               else Value(d.options, n)
  {
    hide Count, NameOf, SetNumber, Value, Counting;
    var m := NameOf(v.key.value).value;
    if v.setting.Number? {
      SetNumberSets(d.options, m, v.setting.number, n);
    } else if v.setting.Flag? {
      FlagKeeps(d.options, v.setting.flag, n);
    }
  }

  /** Accepted overrides take effect one by one: every numeric option has the value last given to it, or keeps the one
      it had; nothing else moves it. */
  lemma {:induction false} OverridesTakeEffect(o: Options, vs: seq<Override>, n: Name)
    requires Applied(o, vs).Some? && Numeric(n)
    ensures Value(Applied(o, vs).value.options, n) == Wanted(o, vs, n)
  {
    hide Apply, Value, Count, Fits, Gives, Counting, Numeric, NameOf;
    AppliedIff(o, vs);
    if vs != [] {
      OverridesTakeEffect(o, vs[..|vs| - 1], n);
      ApplySets(Applied(o, vs[..|vs| - 1]).value, vs[|vs| - 1], n);
    }
  }

  /** The enabled flag last given, or the present one. */
  function WantedFlag(o: Options, vs: seq<Override>): bool {
    if vs == [] then o.enabled
    else
      var last := vs[|vs| - 1];
      if last.key.Some? && NameOf(last.key.value) == Some(Enabled) && last.setting.Flag? then last.setting.flag
      else WantedFlag(o, vs[..|vs| - 1])
  }

  /** The network list last given for option `n`, if any. */
  function WantedList(vs: seq<Override>, n: Name): Option<seq<Item>> {
    if vs == [] then None
    else
      var last := vs[|vs| - 1];
      if last.key.Some? && NameOf(last.key.value) == Some(n) && last.setting.Networks? then last.setting.items
      else WantedList(vs[..|vs| - 1], n)
  }

  lemma ApplySetsRest(d: Draft, v: Override)
    requires Fits(v)
    ensures var r := Apply(d, v);
            && r.Some?
            && r.value.options.enabled == WantedFlag(d.options, [v])
            && r.value.allowed == (if WantedList([v], AllowedNetworks).Some? then WantedList([v], AllowedNetworks) else d.allowed)
            && r.value.denied == (if WantedList([v], DeniedNetworks).Some? then WantedList([v], DeniedNetworks) else d.denied)
            && r.value.options.allowed == d.options.allowed && r.value.options.denied == d.options.denied
  {
    hide NameOf, Count;
    assert [v][..0] == [];
  }

  /** The same for the enabled flag and the network lists. */
  lemma {:induction false} RestTakesEffect(o: Options, vs: seq<Override>)
    requires Applied(o, vs).Some?
    ensures var d := Applied(o, vs).value;
            && d.options.enabled == WantedFlag(o, vs)
            && d.allowed == WantedList(vs, AllowedNetworks) && d.denied == WantedList(vs, DeniedNetworks)
            && d.options.allowed == o.allowed && d.options.denied == o.denied
  {
    hide Apply, NameOf, Fits;
    AppliedIff(o, vs);
    if vs != [] {
      var front, last := vs[..|vs| - 1], vs[|vs| - 1];
      RestTakesEffect(o, front);
      ApplySetsRest(Applied(o, front).value, last);
      FitsList(last);
      assert [last][..0] == [];
    }
  }

  lemma FitsList(v: Override)
    requires Fits(v)
    ensures v.setting.Networks? ==> v.setting.items.Some?
  {
    hide NameOf;
  }

  /** Options are valid exactly if every numeric one is positive and the table is not too large. */
  lemma ValidByValue(o: Options)
    ensures ValidOptions(o) <==> (forall n | Numeric(n) :: 0.0 < Value(o, n)) && Value(o, MaxSources) <= 65535.0
  {
    if forall n | Numeric(n) :: 0.0 < Value(o, n) {
      assert 0.0 < Value(o, PerSourceRate) && 0.0 < Value(o, PerSourceBurst) && 0.0 < Value(o, GlobalRate);
      assert 0.0 < Value(o, GlobalBurst) && 0.0 < Value(o, WhoIsRate) && 0.0 < Value(o, WhoIsBurst);
      assert 0.0 < Value(o, WriteRate) && 0.0 < Value(o, WriteBurst) && 0.0 < Value(o, FloodViolations);
      assert 0.0 < Value(o, MaxSources) && 0.0 < Value(o, FloodWindow) && 0.0 < Value(o, BlockDuration);
      assert 0.0 < Value(o, DuplicateWindow) && 0.0 < Value(o, SourceTtl) && 0.0 < Value(o, LogInterval);
    }
  }

  predicate ListParses(list: Option<seq<Item>>) {
    list.Some? ==> Parses(list.value)
  }

  /** What is refused: overrides are taken exactly if every one has a name and a value of its type, every number wanted is
      positive, the table wanted is not too large, and the lists wanted parse. */
  lemma ProposedIff(o: Options, vs: seq<Override>)
    ensures Proposed(o, vs).Some? <==>
            && (forall i :: 0 <= i < |vs| ==> Fits(vs[i]))
            && (forall n | Numeric(n) :: 0.0 < Wanted(o, vs, n)) && Wanted(o, vs, MaxSources) <= 65535.0
            && ListParses(WantedList(vs, AllowedNetworks)) && ListParses(WantedList(vs, DeniedNetworks))
  {
    hide Value, Fits, ValidOptions, Final, Numeric, Wanted, WantedList, Parses;
    AppliedIff(o, vs);
    NumericMax();
    if Applied(o, vs).Some? {
      RestTakesEffect(o, vs);
      ValidByValue(Applied(o, vs).value.options);
      forall n | Numeric(n) ensures Value(Applied(o, vs).value.options, n) == Wanted(o, vs, n) {
        OverridesTakeEffect(o, vs, n);
      }
    }
  }

  lemma NumericMax()
    ensures Numeric(MaxSources)
  {
  }

  /** What is taken: every option then has the value last given to it, or keeps its own. */
  lemma ProposedIsWanted(o: Options, vs: seq<Override>, n: Name)
    requires Proposed(o, vs).Some? && Numeric(n)
    ensures var r := Proposed(o, vs).value;
            && Value(r, n) == Wanted(o, vs, n) && r.enabled == WantedFlag(o, vs)
            && (match WantedList(vs, AllowedNetworks)
                case None => r.allowed == o.allowed
                case Some(items) => Parses(items) && r.allowed == Parsed(items))
            && (match WantedList(vs, DeniedNetworks)
                case None => r.denied == o.denied
                case Some(items) => Parses(items) && r.denied == Parsed(items))
  {
    hide Value, Fits, ValidOptions, Wanted, WantedList, Parses, Parsed, Numeric;
    OverridesTakeEffect(o, vs, n);
    RestTakesEffect(o, vs);
    FinalKeepsValues(Applied(o, vs).value, n);
  }

  lemma FinalKeepsValues(d: Draft, n: Name)
    requires Acceptable(d) && Numeric(n)
    ensures Value(Final(d), n) == Value(d.options, n)
  {
  }

  /** Counts are taken as given if they are whole, positive and fit 32 bits; all others are taken as 0. */
  lemma CountIsWhole(number: real, n: nat)
    ensures 0 < n <= 4294967295 && number == n as real ==> Count(number) == n
    ensures 0 < Count(number) ==> number == Count(number) as real && Count(number) <= 4294967295
  {
  }

  lemma NamesOfRates()
    ensures NameOf("per_source_rate") == Some(PerSourceRate) && NameOf("global_rate") == Some(GlobalRate)
    ensures NameOf("who_is_rate") == Some(WhoIsRate) && NameOf("write_rate") == Some(WriteRate)
  {
  }

  lemma NamesOfTimes()
    ensures NameOf("flood_window_seconds") == Some(FloodWindow) && NameOf("block_duration_seconds") == Some(BlockDuration)
    ensures NameOf("duplicate_window_seconds") == Some(DuplicateWindow) && NameOf("source_ttl_seconds") == Some(SourceTtl)
    ensures NameOf("log_interval_seconds") == Some(LogInterval)
  {
  }

  lemma NamesOfCounts()
    ensures NameOf("per_source_burst") == Some(PerSourceBurst) && NameOf("global_burst") == Some(GlobalBurst)
    ensures NameOf("who_is_burst") == Some(WhoIsBurst) && NameOf("write_burst") == Some(WriteBurst)
    ensures NameOf("flood_violations") == Some(FloodViolations) && NameOf("max_sources") == Some(MaxSources)
  {
  }

  function Given(key: string, number: real): Override {
    Override(Some(key), Number(number))
  }

  function Set(d: Draft, o: Options): Option<Draft> {
    Some(d.(options := o))
  }

  /** Which key moves which rate or time. */
  lemma RateKeys(d: Draft, x: real)
    ensures Apply(d, Given("per_source_rate", x)) == Set(d, d.options.(perSourceRate := x))
    ensures Apply(d, Given("global_rate", x)) == Set(d, d.options.(globalRate := x))
    ensures Apply(d, Given("who_is_rate", x)) == Set(d, d.options.(whoIsRate := x))
    ensures Apply(d, Given("write_rate", x)) == Set(d, d.options.(writeRate := x))
    ensures Apply(d, Given("flood_window_seconds", x)) == Set(d, d.options.(floodWindow := x))
    ensures Apply(d, Given("block_duration_seconds", x)) == Set(d, d.options.(blockDuration := x))
    ensures Apply(d, Given("duplicate_window_seconds", x)) == Set(d, d.options.(duplicateWindow := x))
    ensures Apply(d, Given("source_ttl_seconds", x)) == Set(d, d.options.(sourceTtl := x))
    ensures Apply(d, Given("log_interval_seconds", x)) == Set(d, d.options.(logInterval := x))
  {
    hide NameOf;
    NamesOfRates();
    NamesOfTimes();
  }

  /** Which key moves which count. */
  lemma CountKeys(d: Draft, n: nat)
    requires 0 < n <= 4294967295
    ensures var x := n as real;
            && Apply(d, Given("per_source_burst", x)) == Set(d, d.options.(perSourceBurst := n))
            && Apply(d, Given("global_burst", x)) == Set(d, d.options.(globalBurst := n))
            && Apply(d, Given("who_is_burst", x)) == Set(d, d.options.(whoIsBurst := n))
            && Apply(d, Given("write_burst", x)) == Set(d, d.options.(writeBurst := n))
            && Apply(d, Given("flood_violations", x)) == Set(d, d.options.(floodViolations := n))
            && Apply(d, Given("max_sources", x)) == Set(d, d.options.(maxSources := n))
  {
    hide Count, NameOf;
    NamesOfCounts();
    CountIsWhole(n as real, n);
  }

  /** Which key moves which flag or list. */
  lemma OtherKeys(d: Draft, flag: bool, items: seq<Item>)
    ensures Apply(d, Override(Some("enabled"), Flag(flag))) == Set(d, d.options.(enabled := flag))
    ensures Apply(d, Override(Some("allowed_networks"), Networks(Some(items)))) == Some(d.(allowed := Some(items)))
    ensures Apply(d, Override(Some("denied_networks"), Networks(Some(items)))) == Some(d.(denied := Some(items)))
  {
  }
}
