/** The light entity of one LED strip ("Stairs step N"). Its cached fields
    change step by step as the host runtime drives it: restore after being
    added, the first fetch of the strip's status, turn on, turn off and the
    poll tick. Every call it makes outside itself (into the REST client, or
    into the host runtime to publish its state or to manage its timer) is
    appended to a ghost log.

    The transitions are first written as functions over a `Cache` value, so
    that lemmas can state what they promise; the class `Stairs` then carries
    the same fields as mutable state, and each of its methods is proved to
    perform exactly its transition. */
module Light {
  import opened Wrappers
  import Api
  import Decimal

  const Domain := "stairs"

  const EffectList := ["RAINBOW", "PULSE", "STROBE"]

  /** The entity's name, "Stairs step N": the strip number reads back from it. */
  function EntityName(strip: int): (r: string)
    ensures |r| > 12 && r[..12] == "Stairs step "
    ensures Decimal.ParseInt(r[12..]) == Some(strip)
  {
    var r := "Stairs step " + Decimal.FromInt(strip);
    assert r[12..] == Decimal.FromInt(strip);
    Decimal.ParseIntFromInt(strip);
    r
  }

  /** The entity's unique id, "stairs_N": the strip number reads back from it. */
  function UniqueId(strip: int): (r: string)
    ensures |r| > |Domain| + 1 && r[..|Domain| + 1] == Domain + "_"
    ensures Decimal.ParseInt(r[|Domain| + 1..]) == Some(strip)
  {
    var r := Domain + "_" + Decimal.FromInt(strip);
    assert r[|Domain| + 1..] == Decimal.FromInt(strip);
    Decimal.ParseIntFromInt(strip);
    r
  }

  /** Different strips get different unique ids and different names, since
      each strip number reads back from both. */
  lemma {:induction false} IdentitiesDistinct(i: int, j: int)
    requires i != j
    ensures UniqueId(i) != UniqueId(j)
    ensures EntityName(i) != EntityName(j)
  {
  }

  // ---------------------------------------------------------------------
  // Values the entity reads and keeps.

  /** `_state`: False, True, or the string "unavailable" once a health check
      has failed. */
  datatype Power = Off | On | Unavailable

  /** Python truthiness of `_state`: "unavailable" is a non-empty string and
      so counts as true. */
  predicate Truthy(p: Power) {
    p != Off
  }

  /** One key of a JSON object or attribute mapping: missing, present with
      null, or present with a value. */
  datatype Field<T> = Absent | Null | Present(value: T)

  /** `d.get(key, default)` on that key. */
  function Get<T>(f: Field<T>, default: Option<T>): Option<T> {
    match f
    case Absent => default
    case Null => None
    case Present(v) => Some(v)
  }

  /** The decoded body of a status response: the four keys the entity reads,
      and whether it has any other key. */
  datatype StatusBody = StatusBody(
    state: Field<string>,
    brightness: Field<int>,
    rgbColor: Field<Api.RGB>,
    effect: Field<string>,
    otherKeys: bool)

  /** Truthiness of the decoded dictionary: `{}` counts as no data. */
  predicate NonEmpty(b: StatusBody) {
    !b.state.Absent? || !b.brightness.Absent? || !b.rgbColor.Absent? || !b.effect.Absent? || b.otherKeys
  }

  /** `data.get("state") == "ON"`. */
  function PowerOf(b: StatusBody): Power {
    if b.state == Present("ON") then On else Off
  }

  /** The state the host runtime recorded for the entity before a restart:
      its state string and the three attributes the entity restores. */
  datatype LastState = LastState(
    state: string,
    brightness: Field<int>,
    rgbColor: Field<Api.RGB>,
    effect: Field<string>)

  /** The entity's mutable fields. `polling` says whether `_stop_update` holds
      the cancel handle of a poll timer. */
  datatype Cache = Cache(
    power: Power,
    brightness: Option<int>,
    rgbColor: Option<Api.RGB>,
    effect: Option<string>,
    available: bool,
    polling: bool)

  const Initial := Cache(Off, Some(255), Some(Api.RGB(255, 255, 255)), Some("STROBE"), false, false)

  /** A call the entity makes outside itself. */
  datatype Event =
    | Remote(call: Api.ApiCall)   // a REST client method
    | WriteState                  // publishing its state to the host runtime
    | TrackInterval               // registering the poll timer
    | CancelInterval              // cancelling it

  /** An exception that ends a transition early and propagates out of it. */
  datatype Exception = TypeError | TimeoutError

  datatype Step = Step(cache: Cache, events: seq<Event>, escaped: Option<Exception>)

  // ---------------------------------------------------------------------
  // The transitions.

  /** A restored attribute: one not recorded keeps the cached value, one
      recorded as null clears it, and one recorded with a value sets it. */
  predicate Restores<T(==)>(f: Field<T>, before: Option<T>, after: Option<T>) {
    match f
    case Absent => after == before
    case Null => after.None?
    case Present(v) => after == Some(v)
  }

  /** Restoring the recorded state: "on" gives On, anything else Off; each
      attribute replaces the cache only when it was recorded at all. */
  function Restored(c: Cache, last: Option<LastState>): (r: Cache)
    ensures last.None? ==> r == c
    ensures last.Some? ==> r.power != Unavailable && (r.power == On <==> last.value.state == "on")
    ensures last.Some? ==> Restores(last.value.brightness, c.brightness, r.brightness)
                           && Restores(last.value.rgbColor, c.rgbColor, r.rgbColor)
                           && Restores(last.value.effect, c.effect, r.effect)
    ensures r.available == c.available && r.polling == c.polling
  {
    match last
    case None => c
    case Some(s) =>
      c.(power := if s.state == "on" then On else Off,
         brightness := Get(s.brightness, c.brightness),
         rgbColor := Get(s.rgbColor, c.rgbColor),
         effect := Get(s.effect, c.effect))
  }

  /** The first status fetch. No data, an empty body or a timeout gives Off.
      With data, the state is On exactly when it is "ON", so a missing state
      gives Off; brightness, colour and effect are read, each falling back to
      the cached value when its key is missing; a colour that
      is null, or missing while none is cached, makes `tuple(None)` raise a
      TypeError after state and brightness were set. The state is published
      in every case. */
  function Initialized(c: Cache, strip: int, reply: Api.Reply<Option<StatusBody>>): Step {
    var events := [Remote(Api.GetStatus(strip)), WriteState];
    match reply
    case TimedOut => Step(c.(power := Off), events, None)
    case Returned(data) =>
      if data.Some? && NonEmpty(data.value) then
        var b := data.value;
        var c1 := c.(power := PowerOf(b), brightness := Get(b.brightness, c.brightness));
        match Get(b.rgbColor, c.rgbColor)
        case None => Step(c1, events, Some(TypeError))
        case Some(rgb) => Step(c1.(rgbColor := Some(rgb), effect := Get(b.effect, c.effect)), events, None)
      else Step(c.(power := Off), events, None)
  }

  function Started(c: Cache): Step {
    Step(c.(polling := true), [TrackInterval], None)
  }

  /** Cancels the timer when one is registered; otherwise does nothing. */
  function Stopped(c: Cache): Step {
    if c.polling then Step(c.(polling := false), [CancelInterval], None) else Step(c, [], None)
  }

  /** Being added to the host runtime: restore, first fetch, then start the
      poll timer, unless the first fetch raised. */
  function Added(c: Cache, strip: int, last: Option<LastState>, reply: Api.Reply<Option<StatusBody>>): Step {
    var i := Initialized(Restored(c, last), strip, reply);
    if i.escaped.Some? then i
    else Step(Started(i.cache).cache, i.events + Started(i.cache).events, None)
  }

  function BrightnessCall(strip: int, brightness: Option<int>): seq<Event> {
    if brightness.Some? then [Remote(Api.SetBrightness(strip, brightness.value))] else []
  }

  function ColorCall(strip: int, rgb: Option<Api.RGB>): seq<Event> {
    if rgb.Some? then [Remote(Api.SetSolidColor(strip, rgb.value))] else []
  }

  function EffectCall(strip: int, effect: Option<string>): seq<Event> {
    if effect.Some? then [Remote(Api.SetEffect(strip, effect.value))] else []
  }

  function PowerOnCall(strip: int, p: Power): seq<Event> {
    if Truthy(p) then [] else [Remote(Api.TurnOnStrip(strip))]
  }

  /** Turning on: brightness, colour and effect, each only when supplied, are
      cached and sent; then, only when the cached state is falsy (Off), the
      strip is powered on and the state becomes On. */
  function TurnedOn(c: Cache, strip: int, brightness: Option<int>, rgb: Option<Api.RGB>, effect: Option<string>): Step {
    var events :=
      BrightnessCall(strip, brightness) + ColorCall(strip, rgb) + EffectCall(strip, effect) +
      PowerOnCall(strip, c.power) + [WriteState];
    Step(c.(brightness := if brightness.Some? then brightness else c.brightness,
            rgbColor := if rgb.Some? then rgb else c.rgbColor,
            effect := if effect.Some? then effect else c.effect,
            power := if Truthy(c.power) then c.power else On),
         events, None)
  }

  lemma ConcatAssoc(l: seq<Event>, a: seq<Event>, b: seq<Event>, c: seq<Event>, d: seq<Event>, e: seq<Event>)
    ensures l + a + b + c + d + e == l + (a + b + c + d + e)
  {
  }

  function TurnedOff(c: Cache, strip: int): Step {
    Step(c.(power := Off, effect := None), [Remote(Api.TurnOffStrip(strip)), WriteState], None)
  }

  /** The health check: availability becomes its result, and a failed check
      forces the state to Unavailable. */
  function Checked(c: Cache, up: bool): Cache {
    if up then c.(available := true) else c.(available := false, power := Unavailable)
  }

  /** A status update: no data or an empty body gives Off. With data, the state
      is On exactly when it is "ON", the colour is replaced only by a non-null
      value, the effect follows `get("effect", current)`, and the brightness
      is left alone. A timeout escapes. */
  function Updated(c: Cache, strip: int, reply: Api.Reply<Option<StatusBody>>): Step {
    var events := [Remote(Api.GetStatus(strip))];
    match reply
    case TimedOut => Step(c, events, Some(TimeoutError))
    case Returned(data) =>
      if data.Some? && NonEmpty(data.value) then
        var b := data.value;
        Step(c.(power := PowerOf(b),
                rgbColor := if b.rgbColor.Present? then Some(b.rgbColor.value) else c.rgbColor,
                effect := Get(b.effect, c.effect)),
             events, None)
      else Step(c.(power := Off), events, None)
  }

  /** One tick of the poll timer: check availability; when available, update
      the status; when not, the state is Unavailable. The state is published
      unless the update raised. */
  function Ticked(c: Cache, strip: int, up: bool, reply: Api.Reply<Option<StatusBody>>): Step {
    var c1 := Checked(c, up);
    var check := [Remote(Api.CheckAvailability)];
    if c1.available then
      var u := Updated(c1, strip, reply);
      if u.escaped.Some? then Step(u.cache, check + u.events, u.escaped)
      else Step(u.cache, check + u.events + [WriteState], None)
    else Step(c1, check + [WriteState], None)
  }

  // ---------------------------------------------------------------------
  // What the transitions promise.

  /** Number of occurrences of `e` in `events`. */
  function Count(events: seq<Event>, e: Event): nat {
    multiset(events)[e]
  }

  /** The order in which turning on makes its calls. */
  function TurnOnRank(e: Event): nat {
    match e
    case Remote(call) =>
      if call.SetBrightness? then 0
      else if call.SetSolidColor? then 1
      else if call.SetEffect? then 2
      else if call.TurnOnStrip? then 3
      else 4
    case _ => 4
  }

  /** Each supplied value is cached, and sent in exactly one call carrying
      that value; a value not supplied leaves the cache alone and is not sent. */
  lemma {:induction false} TurnOnSendsSuppliedValues(c: Cache, strip: int, brightness: Option<int>, rgb: Option<Api.RGB>, effect: Option<string>)
    ensures var s := TurnedOn(c, strip, brightness, rgb, effect);
      && s.cache.brightness == (if brightness.Some? then brightness else c.brightness)
      && s.cache.rgbColor == (if rgb.Some? then rgb else c.rgbColor)
      && s.cache.effect == (if effect.Some? then effect else c.effect)
      && s.cache.available == c.available && s.cache.polling == c.polling
      && (forall v :: Count(s.events, Remote(Api.SetBrightness(strip, v))) == if brightness == Some(v) then 1 else 0)
      && (forall v :: Count(s.events, Remote(Api.SetSolidColor(strip, v))) == if rgb == Some(v) then 1 else 0)
      && (forall v :: Count(s.events, Remote(Api.SetEffect(strip, v))) == if effect == Some(v) then 1 else 0)
  {
    BrightnessSentOnce(c, strip, brightness, rgb, effect);
    ColorSentOnce(c, strip, brightness, rgb, effect);
    EffectSentOnce(c, strip, brightness, rgb, effect);
  }

  lemma {:induction false} BrightnessSentOnce(c: Cache, strip: int, brightness: Option<int>, rgb: Option<Api.RGB>, effect: Option<string>)
    ensures forall v :: Count(TurnedOn(c, strip, brightness, rgb, effect).events, Remote(Api.SetBrightness(strip, v))) == if brightness == Some(v) then 1 else 0
  {
    var b, k, e, p := BrightnessCall(strip, brightness), ColorCall(strip, rgb), EffectCall(strip, effect), PowerOnCall(strip, c.power);
    assert TurnedOn(c, strip, brightness, rgb, effect).events == b + k + e + p + [WriteState];
    forall v ensures Count(b + k + e + p + [WriteState], Remote(Api.SetBrightness(strip, v))) == if brightness == Some(v) then 1 else 0 {
      CountParts(b, k, e, p, Remote(Api.SetBrightness(strip, v)));
    }
  }

  lemma {:induction false} ColorSentOnce(c: Cache, strip: int, brightness: Option<int>, rgb: Option<Api.RGB>, effect: Option<string>)
    ensures forall v :: Count(TurnedOn(c, strip, brightness, rgb, effect).events, Remote(Api.SetSolidColor(strip, v))) == if rgb == Some(v) then 1 else 0
  {
    var b, k, e, p := BrightnessCall(strip, brightness), ColorCall(strip, rgb), EffectCall(strip, effect), PowerOnCall(strip, c.power);
    assert TurnedOn(c, strip, brightness, rgb, effect).events == b + k + e + p + [WriteState];
    forall v ensures Count(b + k + e + p + [WriteState], Remote(Api.SetSolidColor(strip, v))) == if rgb == Some(v) then 1 else 0 {
      CountParts(b, k, e, p, Remote(Api.SetSolidColor(strip, v)));
    }
  }

  lemma {:induction false} EffectSentOnce(c: Cache, strip: int, brightness: Option<int>, rgb: Option<Api.RGB>, effect: Option<string>)
    ensures forall v :: Count(TurnedOn(c, strip, brightness, rgb, effect).events, Remote(Api.SetEffect(strip, v))) == if effect == Some(v) then 1 else 0
  {
    var b, k, e, p := BrightnessCall(strip, brightness), ColorCall(strip, rgb), EffectCall(strip, effect), PowerOnCall(strip, c.power);
    assert TurnedOn(c, strip, brightness, rgb, effect).events == b + k + e + p + [WriteState];
    forall v ensures Count(b + k + e + p + [WriteState], Remote(Api.SetEffect(strip, v))) == if effect == Some(v) then 1 else 0 {
      CountParts(b, k, e, p, Remote(Api.SetEffect(strip, v)));
    }
  }

  /** How often a call occurs in the five parts of turning on, together. */
  lemma {:induction false} CountParts(b: seq<Event>, k: seq<Event>, e: seq<Event>, p: seq<Event>, x: Event)
    ensures Count(b + k + e + p + [WriteState], x) ==
      Count(b, x) + Count(k, x) + Count(e, x) + Count(p, x) + Count([WriteState], x)
  {
    assert multiset(b + k + e + p + [WriteState]) ==
      multiset(b) + multiset(k) + multiset(e) + multiset(p) + multiset([WriteState]);
  }

  /** The calls come in the order brightness, colour, effect, power-on, and the
      state is published last. */
  lemma {:induction false} TurnOnCallOrder(c: Cache, strip: int, brightness: Option<int>, rgb: Option<Api.RGB>, effect: Option<string>)
    ensures var ev := TurnedOn(c, strip, brightness, rgb, effect).events;
      && ev[|ev| - 1] == WriteState
      && forall i, j :: 0 <= i < j < |ev| ==> TurnOnRank(ev[i]) < TurnOnRank(ev[j])
  {
    var b, k, e, p := BrightnessCall(strip, brightness), ColorCall(strip, rgb), EffectCall(strip, effect), PowerOnCall(strip, c.power);
    assert TurnedOn(c, strip, brightness, rgb, effect).events == b + k + e + p + [WriteState];
    RanksAppend(b, k, 1);
    RanksAppend(b + k, e, 2);
    RanksAppend(b + k + e, p, 3);
    RanksAppend(b + k + e + p, [WriteState], 4);
  }

  /** Appending at most one call of rank `r` to calls in increasing rank, all
      below `r`, keeps the ranks increasing. */
  lemma {:induction false} RanksAppend(a: seq<Event>, b: seq<Event>, r: nat)
    requires forall i, j :: 0 <= i < j < |a| ==> TurnOnRank(a[i]) < TurnOnRank(a[j])
    requires forall i :: 0 <= i < |a| ==> TurnOnRank(a[i]) < r
    requires |b| <= 1 && forall i :: 0 <= i < |b| ==> TurnOnRank(b[i]) == r
    ensures forall i, j :: 0 <= i < j < |a + b| ==> TurnOnRank((a + b)[i]) < TurnOnRank((a + b)[j])
    ensures forall i :: 0 <= i < |a + b| ==> TurnOnRank((a + b)[i]) <= r
  {
  }

  /** The power-on call is made exactly when the cached state is Off, and only
      then does the state change, to On; a cached Unavailable is truthy, so it
      stays Unavailable and no power-on call is made. */
  lemma {:induction false} TurnOnPowersOnOnlyFromOff(c: Cache, strip: int, brightness: Option<int>, rgb: Option<Api.RGB>, effect: Option<string>)
    ensures var s := TurnedOn(c, strip, brightness, rgb, effect);
      && (Remote(Api.TurnOnStrip(strip)) in s.events <==> c.power == Off)
      && Count(s.events, Remote(Api.TurnOnStrip(strip))) <= 1
      && s.cache.power == (if c.power == Off then On else c.power)
  {
    var b, k, e, p := BrightnessCall(strip, brightness), ColorCall(strip, rgb), EffectCall(strip, effect), PowerOnCall(strip, c.power);
    var events := TurnedOn(c, strip, brightness, rgb, effect).events;
    assert events == b + k + e + p + [WriteState];
    CountParts(b, k, e, p, Remote(Api.TurnOnStrip(strip)));
    assert Remote(Api.TurnOnStrip(strip)) in events <==> Count(events, Remote(Api.TurnOnStrip(strip))) > 0;
  }

  /** Turning off sets the state Off and clears the effect, keeps brightness,
      colour, availability and the timer, and makes exactly one remote call:
      the power-off. */
  lemma {:induction false} TurnOffResets(c: Cache, strip: int)
    ensures var s := TurnedOff(c, strip);
      && s.cache == c.(power := Off, effect := None)
      && s.cache.brightness == c.brightness && s.cache.rgbColor == c.rgbColor
      && Count(s.events, Remote(Api.TurnOffStrip(strip))) == 1
      && forall e :: e in s.events && e.Remote? ==> e == Remote(Api.TurnOffStrip(strip))
  {
  }

  /** Turning off twice ends in the same state as once, with two power-off
      calls. */
  lemma {:induction false} TurnOffTwice(c: Cache, strip: int)
    ensures var s1 := TurnedOff(c, strip);
      var s2 := TurnedOff(s1.cache, strip);
      && s2.cache == s1.cache
      && Count(s1.events + s2.events, Remote(Api.TurnOffStrip(strip))) == 2
  {
    var s1 := TurnedOff(c, strip);
    var s2 := TurnedOff(s1.cache, strip);
    assert multiset(s1.events + s2.events) == multiset(s1.events) + multiset(s2.events);
  }

  /** A status update with data: On exactly when the state is "ON"; the colour
      changes only to a non-null value; the effect changes only when its key
      is present; brightness, availability and timer never change. */
  lemma {:induction false} UpdateWithData(c: Cache, strip: int, b: StatusBody)
    requires NonEmpty(b)
    ensures var s := Updated(c, strip, Api.Returned(Some(b)));
      && s.escaped == None
      && (s.cache.power == On <==> b.state == Present("ON"))
      && s.cache.power != Unavailable
      && (b.rgbColor.Present? ==> s.cache.rgbColor == Some(b.rgbColor.value))
      && (!b.rgbColor.Present? ==> s.cache.rgbColor == c.rgbColor)
      && (b.effect.Absent? ==> s.cache.effect == c.effect)
      && (b.effect.Null? ==> s.cache.effect == None)
      && (b.effect.Present? ==> s.cache.effect == Some(b.effect.value))
      && s.cache.brightness == c.brightness
      && s.cache.available == c.available && s.cache.polling == c.polling
  {
  }

  /** A status update without data (no body, an empty body, a non-200 status
      or a client error upstream) sets the state Off and nothing else. */
  lemma {:induction false} UpdateWithoutData(c: Cache, strip: int, data: Option<StatusBody>)
    requires data.None? || !NonEmpty(data.value)
    ensures Updated(c, strip, Api.Returned(data)) == Step(c.(power := Off), [Remote(Api.GetStatus(strip))], None)
  {
  }

  /** A poll tick: availability becomes the health result. Unavailable: no
      status call, the state is Unavailable and is published. Available:
      exactly one status call, whose update decides the new state; the state
      is then published, unless the status call timed out. */
  lemma {:induction false} TickFollowsHealth(c: Cache, strip: int, up: bool, reply: Api.Reply<Option<StatusBody>>)
    ensures var s := Ticked(c, strip, up, reply);
      && s.cache.available == up
      && s.events[0] == Remote(Api.CheckAvailability)
      && (!up ==> s.cache == c.(available := false, power := Unavailable)
                  && (forall m :: Remote(Api.GetStatus(m)) !in s.events)
                  && s.events[|s.events| - 1] == WriteState)
      && (up ==> Count(s.events, Remote(Api.GetStatus(strip))) == 1
                 && s.cache == Updated(c.(available := true), strip, reply).cache)
      && (s.escaped.Some? <==> up && reply.TimedOut?)
      && (up && reply.Returned? ==> s.events == [Remote(Api.CheckAvailability), Remote(Api.GetStatus(strip)), WriteState])
      && (up && reply.TimedOut? ==> WriteState !in s.events)
  {
    var s := Ticked(c, strip, up, reply);
    if up {
      var u := Updated(c.(available := true), strip, reply);
      assert u.events == [Remote(Api.GetStatus(strip))];
      assert multiset(s.events)[Remote(Api.GetStatus(strip))] == 1;
    }
  }

  /** The first fetch with data: the state follows "ON" and the brightness
      is read, falling back to the cached value when missing. Colour and
      effect are read the same way, unless the colour is null or missing with
      none cached, which raises a TypeError and leaves both as cached.
      Availability and the timer are kept. */
  lemma {:induction false} InitializeWithData(c: Cache, strip: int, b: StatusBody)
    requires NonEmpty(b)
    ensures var s := Initialized(c, strip, Api.Returned(Some(b)));
      && (s.cache.power == On <==> b.state == Present("ON"))
      && s.cache.power != Unavailable
      && s.cache.brightness == (if b.brightness.Absent? then c.brightness else Get(b.brightness, None))
      && (s.escaped == Some(TypeError) <==> Get(b.rgbColor, c.rgbColor).None?)
      && (s.escaped.None? ==> s.cache.rgbColor == Get(b.rgbColor, c.rgbColor) && s.cache.effect == Get(b.effect, c.effect))
      && (s.escaped.Some? ==> s.cache.rgbColor == c.rgbColor && s.cache.effect == c.effect)
      && s.cache.available == c.available && s.cache.polling == c.polling
      && s.events == [Remote(Api.GetStatus(strip)), WriteState]
  {
  }

  /** The first fetch without data, or ended by a timeout, sets the state Off
      and nothing else, and the state is published. */
  lemma {:induction false} InitializeFailure(c: Cache, strip: int, reply: Api.Reply<Option<StatusBody>>)
    requires reply.TimedOut? || reply.value.None? || !NonEmpty(reply.value.value)
    ensures Initialized(c, strip, reply) == Step(c.(power := Off), [Remote(Api.GetStatus(strip)), WriteState], None)
  {
  }

  /** A successful first fetch whose body carries all four fields overwrites
      whatever was restored: the result does not depend on the recorded
      state. */
  lemma {:induction false} FetchOverwritesRestored(c: Cache, strip: int, last: Option<LastState>, b: StatusBody)
    requires b.state.Present? && b.brightness.Present? && b.rgbColor.Present? && b.effect.Present?
    ensures var s := Initialized(Restored(c, last), strip, Api.Returned(Some(b)));
      && s.escaped == None
      && s.cache == c.(power := PowerOf(b), brightness := Some(b.brightness.value),
                       rgbColor := Some(b.rgbColor.value), effect := Some(b.effect.value))
  {
  }

  /** Being added starts the poll timer exactly when the first fetch did not
      raise. */
  lemma {:induction false} AddedStartsTimer(c: Cache, strip: int, last: Option<LastState>, reply: Api.Reply<Option<StatusBody>>)
    requires !c.polling
    ensures var s := Added(c, strip, last, reply);
      && (s.cache.polling <==> s.escaped.None?)
      && (TrackInterval in s.events <==> s.escaped.None?)
  {
  }

  /** Stopping the timer a second time changes nothing and calls nothing. */
  lemma {:induction false} StopIsIdempotent(c: Cache)
    ensures var s1 := Stopped(c);
      && !s1.cache.polling
      && Stopped(s1.cache) == Step(s1.cache, [], None)
      && Count(s1.events, CancelInterval) == (if c.polling then 1 else 0)
  {
  }

  // ---------------------------------------------------------------------
  // The entity itself.

  class Stairs {
    const client: Api.Client
    const stripNumber: int
    const name: string
    const uniqueId: string
    const effectList: seq<string>

    var power: Power
    var brightness: Option<int>
    var rgbColor: Option<Api.RGB>
    var effect: Option<string>
    var available: bool
    var polling: bool

    /** Every call made outside the entity, oldest first. */
    ghost var log: seq<Event>

    function Snapshot(): Cache
      reads this
    {
      Cache(power, brightness, rgbColor, effect, available, polling)
    }

    /** A new entity is Off, at full brightness, white, with effect STROBE,
        not available and without a timer. */
    constructor (client: Api.Client, stripNumber: int)
      ensures this.client == client && this.stripNumber == stripNumber
      ensures name == EntityName(stripNumber) && uniqueId == UniqueId(stripNumber)
      ensures effectList == EffectList
      ensures Snapshot() == Initial && log == []
    {
      this.client := client;
      this.stripNumber := stripNumber;
      power := Off;
      brightness := Some(255);
      name := EntityName(stripNumber);
      uniqueId := UniqueId(stripNumber);
      rgbColor := Some(Api.RGB(255, 255, 255));
      effectList := EffectList;
      effect := Some("STROBE");
      polling := false;
      available := false;
      log := [];
    }

    /** Added to the host runtime, given the recorded state (if any) and the
        outcome of the first status request. */
    method AddedToHass(last: Option<LastState>, status: Api.Outcome<StatusBody>) returns (escaped: Option<Exception>)
      modifies this
      ensures var s := Added(old(Snapshot()), stripNumber, last, Api.StatusReply(status));
        Snapshot() == s.cache && log == old(log) + s.events && escaped == s.escaped
    {
      if last.Some? {
        var st := last.value;
        if st.state == "on" {
          power := On;
        } else {
          power := Off;
        }
        if !st.brightness.Absent? {
          brightness := Get(st.brightness, Some(255));
        }
        if !st.rgbColor.Absent? {
          rgbColor := Get(st.rgbColor, Some(Api.RGB(255, 255, 255)));
        }
        if !st.effect.Absent? {
          effect := Get(st.effect, Some("STROBE"));
        }
      }
      assert Snapshot() == Restored(old(Snapshot()), last);
      escaped := InitializeStateFromApi(status);
      if escaped.None? {
        StartUpdateLoop();
      }
    }

    method InitializeStateFromApi(status: Api.Outcome<StatusBody>) returns (escaped: Option<Exception>)
      modifies this
      ensures var s := Initialized(old(Snapshot()), stripNumber, Api.StatusReply(status));
        Snapshot() == s.cache && log == old(log) + s.events && escaped == s.escaped
    {
      log := log + [Remote(Api.GetStatus(stripNumber))];
      escaped := None;
      var reply := Api.StatusReply(status);
      if reply.TimedOut? {
        // the TimeoutError handler
        power := Off;
      } else if reply.value.Some? && NonEmpty(reply.value.value) {
        var data := reply.value.value;
        power := PowerOf(data);
        brightness := Get(data.brightness, brightness);
        var rgb := Get(data.rgbColor, rgbColor);
        if rgb.None? {
          // tuple(None) raises; no handler catches a TypeError
          escaped := Some(TypeError);
        } else {
          rgbColor := rgb;
          effect := Get(data.effect, effect);
        }
      } else {
        power := Off;
      }
      // the `finally` clause
      log := log + [WriteState];
    }

    method TurnOnOnline(brightness: Option<int>, rgb: Option<Api.RGB>, effect: Option<string>)
      modifies this
      ensures var s := TurnedOn(old(Snapshot()), stripNumber, brightness, rgb, effect);
        Snapshot() == s.cache && log == old(log) + s.events
    {
      if brightness.Some? {
        this.brightness := brightness;
        log := log + [Remote(Api.SetBrightness(stripNumber, brightness.value))];
      }
      assert log == old(log) + BrightnessCall(stripNumber, brightness);
      if rgb.Some? {
        rgbColor := rgb;
        log := log + [Remote(Api.SetSolidColor(stripNumber, rgb.value))];
      }
      assert log == old(log) + BrightnessCall(stripNumber, brightness) + ColorCall(stripNumber, rgb);
      if effect.Some? {
        this.effect := effect;
        log := log + [Remote(Api.SetEffect(stripNumber, effect.value))];
      }
      assert log == old(log) + BrightnessCall(stripNumber, brightness) + ColorCall(stripNumber, rgb)
                    + EffectCall(stripNumber, effect);
      if !Truthy(power) {
        power := On;
        log := log + [Remote(Api.TurnOnStrip(stripNumber))];
      }
      log := log + [WriteState];
      ConcatAssoc(old(log), BrightnessCall(stripNumber, brightness), ColorCall(stripNumber, rgb),
                 EffectCall(stripNumber, effect), PowerOnCall(stripNumber, old(power)), [WriteState]);
    }

    method TurnOffOnline()
      modifies this
      ensures var s := TurnedOff(old(Snapshot()), stripNumber);
        Snapshot() == s.cache && log == old(log) + s.events
    {
      power := Off;
      effect := None;
      log := log + [Remote(Api.TurnOffStrip(stripNumber))];
      log := log + [WriteState];
    }

    method StartUpdateLoop()
      modifies this
      ensures var s := Started(old(Snapshot()));
        Snapshot() == s.cache && log == old(log) + s.events
    {
      polling := true;
      log := log + [TrackInterval];
    }

    method StopUpdateLoop()
      modifies this
      ensures var s := Stopped(old(Snapshot()));
        Snapshot() == s.cache && log == old(log) + s.events
    {
      if polling {
        log := log + [CancelInterval];
        polling := false;
      }
    }

    method CheckAvailability(health: Api.Outcome<()>)
      modifies this
      ensures Snapshot() == Checked(old(Snapshot()), Api.HealthReply(health))
      ensures log == old(log) + [Remote(Api.CheckAvailability)]
    {
      log := log + [Remote(Api.CheckAvailability)];
      available := Api.HealthReply(health);
      if !available {
        power := Unavailable;
      }
    }

    /** The status update; the poll tick runs it, and so does the host
        runtime's own polling of the entity. */
    method Update(status: Api.Outcome<StatusBody>) returns (escaped: Option<Exception>)
      modifies this
      ensures var s := Updated(old(Snapshot()), stripNumber, Api.StatusReply(status));
        Snapshot() == s.cache && log == old(log) + s.events && escaped == s.escaped
    {
      log := log + [Remote(Api.GetStatus(stripNumber))];
      escaped := None;
      var reply := Api.StatusReply(status);
      if reply.TimedOut? {
        escaped := Some(TimeoutError);
      } else if reply.value.Some? && NonEmpty(reply.value.value) {
        var data := reply.value.value;
        power := PowerOf(data);
        if data.rgbColor.Present? {
          rgbColor := Some(data.rgbColor.value);
        }
        effect := Get(data.effect, effect);
      } else {
        power := Off;
      }
    }

    /** One tick of the poll timer, given the outcomes of the health request
        and of the status request (the latter is used only when the health
        check passes). */
    method UpdateCallback(health: Api.Outcome<()>, status: Api.Outcome<StatusBody>) returns (escaped: Option<Exception>)
      modifies this
      ensures var s := Ticked(old(Snapshot()), stripNumber, Api.HealthReply(health), Api.StatusReply(status));
        Snapshot() == s.cache && log == old(log) + s.events && escaped == s.escaped
    {
      CheckAvailability(health);
      escaped := None;
      if available {
        escaped := Update(status);
      }
      // the `elif` that would set Unavailable again finds it already set by
      // the availability check
      if escaped.None? {
        log := log + [WriteState];
      }
    }
  }

  /** The entity for strip `k`, as the constructor leaves it. */
  ghost predicate IsNew(e: Stairs, client: Api.Client, k: int)
    reads e
  {
    && e.client == client && e.stripNumber == k
    && e.uniqueId == UniqueId(k) && e.name == EntityName(k)
    && e.Snapshot() == Initial && e.log == []
  }

  /** Setting up the platform for a configuration entry: one entity per strip
      index 0 .. ledStrips-1, all sharing the entry's client. */
  method SetupEntry(client: Api.Client, ledStrips: int) returns (entities: seq<Stairs>)
    ensures |entities| == if ledStrips > 0 then ledStrips else 0
    ensures forall i :: 0 <= i < |entities| ==> entities[i].client == client && entities[i].stripNumber == i
    ensures forall i :: 0 <= i < |entities| ==> entities[i].Snapshot() == Initial && entities[i].log == []
    ensures forall i, j :: 0 <= i < j < |entities| ==>
              entities[i].uniqueId != entities[j].uniqueId && entities[i].name != entities[j].name
  {
    entities := [];
    var i := 0;
    while i < ledStrips
      invariant 0 <= i && |entities| == i
      invariant if ledStrips > 0 then i <= ledStrips else i == 0
      invariant forall k :: 0 <= k < i ==> IsNew(entities[k], client, k)
    {
      var entity := new Stairs(client, i);
      entities := entities + [entity];
      i := i + 1;
    }
    IdentitiesDistinctBelow(|entities|);
  }

  /** The strips 0..n-1 have pairwise distinct unique ids and names. */
  lemma {:induction false} IdentitiesDistinctBelow(n: int)
    ensures forall j, k :: 0 <= j < k < n ==> UniqueId(j) != UniqueId(k) && EntityName(j) != EntityName(k)
  {
    forall j, k | 0 <= j < k < n
      ensures UniqueId(j) != UniqueId(k) && EntityName(j) != EntityName(k)
    {
      IdentitiesDistinct(j, k);
    }
  }
}
