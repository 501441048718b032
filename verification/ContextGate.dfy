// The context-size control: clamping a requested context, estimating its
// memory, and the gate a load has to pass before and after the model is there.

module ContextGate {
  import opened Wrappers

  const CONTEXT_HARD_CAP := 262144
  const CONTEXT_MIN := 4096
  const CONTEXT_DEFAULT := 8192
  const CONTEXT_FALLBACK_MAX := 32768

  function Min(a: int, b: int): int { if a < b then a else b }
  function Max(a: int, b: int): int { if a < b then b else a }

  // `context_supported_max`
  function SupportedMax(modelMax: Option<int>): int {
    var m := if modelMax.None? || modelMax.value <= 0 then CONTEXT_FALLBACK_MAX else modelMax.value;
    Max(CONTEXT_MIN, Min(m, CONTEXT_HARD_CAP))
  }

  // `clamp_context_length`
  function Clamp(requested: Option<int>, modelMax: Option<int>): int {
    var supported := SupportedMax(modelMax);
    if requested.None? then Min(CONTEXT_DEFAULT, supported)
    else Max(CONTEXT_MIN, Min(requested.value, supported))
  }

  // What the model itself allows, by its configuration.
  function Allowed(modelMax: Option<int>): int {
    if modelMax.Some? && modelMax.value > 0 then modelMax.value else 32768
  }

  lemma ClampInRange(requested: Option<int>, modelMax: Option<int>)
    ensures 4096 <= Clamp(requested, modelMax) <= Min(Max(4096, Allowed(modelMax)), 262144)
    ensures requested.Some? && 4096 <= requested.value <= Min(Allowed(modelMax), 262144)
          ==> Clamp(requested, modelMax) == requested.value
    ensures requested.Some? && requested.value < 4096 ==> Clamp(requested, modelMax) == 4096
    ensures requested.Some? && requested.value > Min(Max(4096, Allowed(modelMax)), 262144)
          ==> Clamp(requested, modelMax) == Min(Max(4096, Allowed(modelMax)), 262144)
    ensures requested.None? ==> Clamp(requested, modelMax) == Min(8192, Max(4096, Allowed(modelMax)))
  {}

  // Clamping a value again, once the real maximum is known, never raises it,
  // and clamping to the maximum already clamped to changes nothing.
  lemma ReclampLowers(requested: Option<int>, before: Option<int>, after: Option<int>)
    ensures var first := Clamp(requested, before);
            Clamp(Some(first), after) == Min(first, SupportedMax(after)) && Clamp(Some(first), before) == first
            && Clamp(requested, Some(SupportedMax(before))) == first
  {}

  // ---------------------------------------------------------- KV estimate

  // Layers, key/value heads and head size read from the model's configuration.
  datatype Geometry = Geometry(layers: int, kvHeads: int, headDim: int)

  const GIB := 1073741824.0

  // Gigabytes per 1024 tokens where the geometry is unknown.
  function HeuristicPer1k(billions: Option<int>): real {
    var pb := if billions.None? || billions.value == 0 then 9 else billions.value;
    if pb <= 4 then 0.012 else if pb <= 9 then 0.020 else if pb <= 27 then 0.040 else 0.050
  }

  // `estimate_kv_cache_gb`
  function EstimateKv(context: int, geometry: Option<Geometry>, billions: Option<int>): real {
    var ctx := Max(1, context);
    match geometry
    case Some(g) => (2 * g.layers * g.kvHeads * g.headDim * 2 * ctx) as real * 1.25 / GIB
    case None => ctx as real / 1024.0 * HeuristicPer1k(billions) * 1.25
  }

  // The estimate is proportional to the context.
  function Rate(geometry: Option<Geometry>, billions: Option<int>): real {
    match geometry
    case Some(g) => (2 * g.layers * g.kvHeads * g.headDim * 2) as real * 1.25 / GIB
    case None => HeuristicPer1k(billions) * 1.25 / 1024.0
  }

  lemma EstimateProportional(context: int, geometry: Option<Geometry>, billions: Option<int>)
    requires context >= 1
    ensures EstimateKv(context, geometry, billions) == context as real * Rate(geometry, billions)
  {
    match geometry
    case None =>
    case Some(g) =>
      var n := 2 * g.layers * g.kvHeads * g.headDim * 2;
      IntProduct(n, context);
      Reassociate(n as real, context as real);
  }

  lemma IntProduct(n: int, m: int)
    ensures (n * m) as real == n as real * m as real
  {}

  lemma Reassociate(x: real, y: real)
    ensures x * y * 1.25 / GIB == y * (x * 1.25 / GIB)
  {
    assert x * y * 1.25 == y * (x * 1.25);
    Divide(y, x * 1.25);
  }

  lemma Divide(y: real, z: real)
    ensures y * z / GIB == y * (z / GIB)
  {
    var q := z / GIB;
    assert z == q * GIB;
    assert y * z == (y * q) * GIB;
  }

  // ----------------------------------------------------------------- gate

  datatype Level = Refuse | Warn | Ok

  function Rank(l: Level): nat {
    match l case Refuse => 0 case Warn => 1 case Ok => 2
  }

  // A model card: its comfortable memory, the floor its weights need, its size
  // in billions of parameters and the key it goes by.
  datatype Card = Card(comfort: int, floor: int, billions: Option<int>, key: string)

  datatype Gate = Gate(level: Level, reason: string, suggest: Option<string>)

  // `_largest_fitting_key`: the picker order is walked from its end.
  function LargestFitting(order: seq<Option<Card>>, usable: int): Option<string> {
    if order == [] then None
    else
      var last := order[|order| - 1];
      if last.Some? && usable >= last.value.floor then Some(last.value.key)
      else LargestFitting(order[..|order| - 1], usable)
  }

  function Extra(context: Option<int>, geometry: Option<Geometry>, billions: Option<int>): real {
    if context.None? || context.value == 0 then 0.0
    else
      var d := EstimateKv(context.value, geometry, billions) - EstimateKv(4096, geometry, billions);
      if d > 0.0 then d else 0.0
  }

  // `gate`
  function GateOf(card: Option<Card>, usable: int, context: Option<int>, geometry: Option<Geometry>,
                  order: seq<Option<Card>>): Gate {
    match card
    case None => Gate(Refuse, "model_unavailable_on_device", None)
    case Some(c) =>
      var extra := Extra(context, geometry, c.billions);
      if usable as real >= c.comfort as real + extra then Gate(Ok, "fits_comfortably", None)
      else if usable as real >= c.floor as real + extra then
        Gate(Warn, if context.None? || context.value == 0 then "tight_memory_may_be_slow"
                   else "context_tight_for_memory", None)
      else Gate(Refuse, "insufficient_memory", LargestFitting(order, usable))
  }

  function LevelOf(c: Card, usable: int, context: Option<int>, geometry: Option<Geometry>): Level {
    GateOf(Some(c), usable, context, geometry, []).level
  }

  lemma LevelIgnoresOrder(c: Card, usable: int, context: Option<int>, geometry: Option<Geometry>,
                          order: seq<Option<Card>>)
    ensures GateOf(Some(c), usable, context, geometry, order).level == LevelOf(c, usable, context, geometry)
  {}

  // The memory the context needs beyond the 4096 tokens the floor allows for.
  function Over(context: int, rate: real): real {
    (context - 4096) as real * rate
  }

  lemma Distribute(context: int, rate: real)
    ensures Over(context, rate) == context as real * rate - 4096.0 * rate
  {
    assert (context - 4096) as real == context as real - 4096.0;
    var c := context as real;
    assert (c - 4096.0) * rate == c * rate - 4096.0 * rate;
  }

  lemma ExtraIs(context: int, geometry: Option<Geometry>, billions: Option<int>)
    requires context >= 1
    ensures var over := Over(context, Rate(geometry, billions));
            Extra(Some(context), geometry, billions) == if over > 0.0 then over else 0.0
  {
    EstimateProportional(context, geometry, billions);
    EstimateProportional(4096, geometry, billions);
    Distribute(context, Rate(geometry, billions));
    hide EstimateKv, Rate, Over;
  }

  lemma Product(x: real, y: real)
    requires x >= 0.0 && y >= 0.0
    ensures x * y >= 0.0
  {}

  lemma OverMonotone(a: int, b: int, rate: real)
    requires 4096 <= a <= b
    ensures Over(a, rate) <= Over(b, rate) || (Over(a, rate) <= 0.0 && Over(b, rate) <= 0.0)
  {
    var x, y := (a - 4096) as real, (b - 4096) as real;
    if rate >= 0.0 {
      Product(y - x, rate);
      assert y * rate == x * rate + (y - x) * rate;
    } else {
      Product(x, -rate);
      Product(y, -rate);
    }
  }

  // A larger context never needs less extra memory, with one estimator.
  lemma ExtraMonotone(a: int, b: int, geometry: Option<Geometry>, billions: Option<int>)
    requires 4096 <= a <= b
    ensures Extra(Some(a), geometry, billions) <= Extra(Some(b), geometry, billions)
  {
    ExtraIs(a, geometry, billions);
    ExtraIs(b, geometry, billions);
    OverMonotone(a, b, Rate(geometry, billions));
    hide Extra, Rate, Over;
  }

  // What the gate says, and exactly when: memory for the comfortable size and the
  // context is fine, memory for the floor and the context is tight, and less is
  // refused with a suggestion. The context counts for what it takes beyond 4096
  // tokens.
  lemma GateIff(c: Card, usable: int, context: Option<int>, geometry: Option<Geometry>, order: seq<Option<Card>>)
    requires context.Some? ==> context.value >= 0
    ensures var over := if context.None? || context.value == 0 then 0.0
                        else Over(context.value, Rate(geometry, c.billions));
      var need := if over > 0.0 then over else 0.0;
      var g := GateOf(Some(c), usable, context, geometry, order);
      && (g.level == Ok <==> usable as real >= c.comfort as real + need)
      && (g.level == Refuse <==>
            usable as real < c.comfort as real + need && usable as real < c.floor as real + need)
      && (g.level == Refuse ==> g.reason == "insufficient_memory" && g.suggest == LargestFitting(order, usable))
      && (g.level == Warn ==> g.suggest.None? && (g.reason == "context_tight_for_memory" <==>
                                                    context.Some? && context.value != 0))
  {
    if context.Some? && context.value != 0 { ExtraIs(context.value, geometry, c.billions); }
    hide Over, Rate, LargestFitting;
    assert context.None? || context.value == 0 ==> Extra(context, geometry, c.billions) == 0.0;
    hide Extra;
  }

  // More memory or a smaller context never makes the verdict worse.
  lemma GateMonotone(c: Card, usable: int, usable': int, context: int, context': int, geometry: Option<Geometry>)
    requires usable <= usable' && 4096 <= context' <= context
    ensures Rank(LevelOf(c, usable, Some(context), geometry)) <= Rank(LevelOf(c, usable', Some(context'), geometry))
  {
    ExtraMonotone(context', context, geometry, c.billions);
  }

  // A refusal suggests the last card of the order that fits, and suggests
  // nothing exactly if none does.
  lemma {:induction false} SuggestionRight(order: seq<Option<Card>>, usable: int)
    ensures LargestFitting(order, usable).None?
       <==> forall i :: 0 <= i < |order| && order[i].Some? ==> usable < order[i].value.floor
    ensures LargestFitting(order, usable).Some? ==>
      exists i :: 0 <= i < |order| && order[i].Some? && usable >= order[i].value.floor
        && LargestFitting(order, usable).value == order[i].value.key
        && forall j :: i < j < |order| && order[j].Some? ==> usable < order[j].value.floor
  {
    if order != [] {
      var n := |order| - 1;
      var last, init := order[n], order[..n];
      if last.Some? && usable >= last.value.floor {
      } else {
        SuggestionRight(init, usable);
        if LargestFitting(init, usable).Some? {
          var i :| 0 <= i < |init| && init[i].Some? && usable >= init[i].value.floor
            && LargestFitting(init, usable).value == init[i].value.key
            && forall j :: i < j < |init| && init[j].Some? ==> usable < init[j].value.floor;
          assert order[i] == init[i];
          assert forall j :: i < j < |order| && order[j].Some? ==> usable < order[j].value.floor by {
            forall j | i < j < |order| && order[j].Some?
              ensures usable < order[j].value.floor
            {
              if j < n { assert init[j] == order[j]; }
            }
          }
        } else {
          assert forall i :: 0 <= i < n ==> order[i] == init[i];
        }
      }
    }
  }

  // ----------------------------------------------------------- the manager

  // What a model's configuration file says.
  datatype Config = Config(modelMax: Option<int>, geometry: Option<Geometry>)

  datatype LoadError = Refused | Unconfirmed | NotReady | LoaderFailed

  // One model tier of `ModelManager`. `config` is what lies in the cache
  // directory, `published` whether the sentinel is there too, and `resolved`
  // whether this process has resolved the directory: the gate reads the
  // geometry only then, the maximum in either case.
  class Manager {
    const card: Card
    const order: seq<Option<Card>>
    const usable: int
    var config: Option<Config>
    var published: bool
    var resolved: bool
    var stored: Option<int>
    var active: Option<int>

    constructor (card: Card, order: seq<Option<Card>>, usable: int, config: Option<Config>,
                 published: bool, stored: Option<int>)
      requires published ==> config.Some?
      ensures Valid() && this.card == card && this.order == order && this.usable == usable && this.config == config
      ensures this.published == published && !resolved && this.stored == stored && active == None
    {
      this.card, this.order, this.usable := card, order, usable;
      this.config, this.published, this.resolved := config, published, false;
      this.stored, this.active := stored, None;
    }

    predicate Valid()
      reads this
    {
      (resolved ==> published) && (published ==> config.Some?)
    }

    // `context_max_for`
    function ContextMax(): int
      reads this
    {
      SupportedMax(if config.Some? then config.value.modelMax else None)
    }

    // `_chosen_context_for`
    function ChosenContext(): int
      reads this
    {
      Clamp(stored, Some(ContextMax()))
    }

    function KnownGeometry(): Option<Geometry>
      reads this
    {
      if resolved && config.Some? then config.value.geometry else None
    }

    // `set_context_length`
    method SetContextLength(requested: int) returns (clamped: int, gate: Gate)
      requires Valid()
      modifies this`stored
      ensures Valid() && stored == Some(clamped) && clamped == Clamp(Some(requested), Some(ContextMax()))
      ensures gate == GateOf(Some(card), usable, Some(clamped), KnownGeometry(), order)
      ensures ChosenContext() == clamped
    {
      var ctxMax := ContextMax();
      clamped := Clamp(Some(requested), Some(ctxMax));
      stored := Some(clamped);
      gate := GateOf(Some(card), usable, Some(clamped), KnownGeometry(), order);
    }

    // `ensure_ready`: what a download yields is up to the world, and None stands
    // for one that raises; a published model is left alone.
    method EnsureReady(downloaded: Option<Config>) returns (ok: bool)
      requires Valid()
      modifies this`config, this`published, this`resolved
      ensures Valid() && ok == (old(published) || downloaded.Some?)
      ensures ok ==> resolved && published && config == if old(published) then old(config) else downloaded
      ensures !ok ==> config == old(config) && published == old(published) && resolved == old(resolved)
    {
      if !published {
        if downloaded.None? { return false; }
        config := downloaded;
        published := true;
      }
      resolved := true;
      return true;
    }

    // The context a load checks: the one asked for or the one chosen before.
    function Checked(requested: Option<int>): int
      reads this
    {
      Clamp(if requested.Some? then requested else stored, Some(ContextMax()))
    }

    // `load`: choose, gate, make ready, clamp again, load. `loads` tells
    // whether the runtime's loader returns.
    method Load(requested: Option<int>, allowWarn: bool, downloaded: Option<Config>, loads: bool)
      returns (r: Result<int, LoadError>)
      requires Valid()
      modifies this
      ensures Valid()
      ensures var checked := old(Checked(requested));
        var verdict := LevelOf(card, usable, Some(checked), old(KnownGeometry()));
        r == if verdict.Refuse? then Failure(Refused)
             else if verdict.Warn? && !allowWarn then Failure(Unconfirmed)
             else if !old(published) && downloaded.None? then Failure(NotReady)
             else if !loads then Failure(LoaderFailed)
             else Success(Min(checked, ContextMax()))
      ensures r.Success? ==> active == Some(r.value) && stored == Some(r.value) && resolved
      ensures r.Failure? ==> stored == old(stored) && active == if r.error.LoaderFailed? then None else old(active)
      ensures (r.Success? || r.error.LoaderFailed?) ==> config == if old(published) then old(config) else downloaded
    {
      var ctxMax := ContextMax();
      var chosen := Clamp(Some(if requested.Some? then requested.value else ChosenContext()), Some(ctxMax));
      if requested.None? { ReclampLowers(stored, Some(ctxMax), Some(ctxMax)); }
      var gate := GateOf(Some(card), usable, Some(chosen), KnownGeometry(), order);
      LevelIgnoresOrder(card, usable, Some(chosen), KnownGeometry(), order);
      hide GateOf;
      if gate.level.Refuse? { return Failure(Refused); }
      if gate.level.Warn? && !allowWarn { return Failure(Unconfirmed); }
      var ready := EnsureReady(downloaded);
      if !ready { return Failure(NotReady); }
      chosen := Clamp(Some(chosen), Some(ContextMax()));
      active := None;
      if !loads { return Failure(LoaderFailed); }
      active := Some(chosen);
      stored := Some(chosen);
      return Success(chosen);
    }
  }

  // With one estimator the context a load ends up with is gated no worse than
  // the one that was checked.
  lemma LoadedNoWorse(c: Card, usable: int, checked: int, supported: int, geometry: Option<Geometry>)
    requires 4096 <= checked && 4096 <= supported
    ensures Rank(LevelOf(c, usable, Some(checked), geometry))
          <= Rank(LevelOf(c, usable, Some(Min(checked, supported)), geometry))
  {
    GateMonotone(c, usable, usable, checked, Min(checked, supported), geometry);
  }

  // A first load checks with the estimate by size and runs with the geometry it
  // then finds. What was let through is refused afterwards exactly if the
  // memory lies between the two floors.
  lemma FirstLoadIff(c: Card, usable: int, checked: int, supported: int, g: Geometry)
    requires checked >= 4096 && supported >= 4096 && c.floor <= c.comfort
    ensures (!LevelOf(c, usable, Some(checked), None).Refuse?
             && LevelOf(c, usable, Some(Min(checked, supported)), Some(g)).Refuse?)
       <==> Extra(Some(checked), None, c.billions)
            <= (usable - c.floor) as real < Extra(Some(Min(checked, supported)), Some(g), c.billions)
  {
    hide Extra;
    assert c.floor as real <= c.comfort as real;
    assert (usable - c.floor) as real == usable as real - c.floor as real;
  }

  // That never happens where the geometry needs no more per token than the
  // estimate by size.
  lemma FirstLoadSafe(c: Card, usable: int, checked: int, supported: int, g: Geometry)
    requires checked >= 4096 && supported >= 4096
    requires Rate(Some(g), c.billions) <= Rate(None, c.billions)
    ensures Rank(LevelOf(c, usable, Some(checked), None))
          <= Rank(LevelOf(c, usable, Some(Min(checked, supported)), Some(g)))
  {
    var ran := Min(checked, supported);
    ExtraMonotone(ran, checked, None, c.billions);
    ExtraIs(ran, Some(g), c.billions);
    ExtraIs(ran, None, c.billions);
    RateMonotone(ran, Rate(Some(g), c.billions), Rate(None, c.billions));
    hide Extra, Rate, Over;
  }

  lemma RateMonotone(context: int, low: real, high: real)
    requires context >= 4096 && low <= high
    ensures Over(context, low) <= Over(context, high)
  {
    var x := (context - 4096) as real;
    Product(x, high - low);
    assert x * high == x * low + x * (high - low);
  }

  // They can disagree: a machine that comfortably passes by size and is refused
  // by the geometry of the model it then has.
  lemma FirstLoadCanDisagree()
    ensures var c := Card(10, 6, Some(4), "lite"); var g := Geometry(64, 32, 256);
            LevelOf(c, 12, Some(65536), None).Ok? && LevelOf(c, 12, Some(65536), Some(g)).Refuse?
  {
    var g := Geometry(64, 32, 256);
    EstimateProportional(65536, None, Some(4));
    EstimateProportional(4096, None, Some(4));
    assert EstimateKv(65536, Some(g), Some(4)) == 160.0;
    assert EstimateKv(4096, Some(g), Some(4)) == 10.0;
  }
}
