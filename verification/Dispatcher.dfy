/**
 Fanning alerts out: each event goes to every channel of its organization, to the organization's
 default recipients if it has none, or, during maintenance, into the record only. What the channel
 list, the maintenance check, the analyzer and each delivery answer are parameters; organization 0
 stands for none.
 */
module Dispatcher {
  import opened Wrappers

  datatype Event = Event(org: nat, monitorId: string, firing: bool, text: string)

  datatype Channel = Channel(id: nat, kind: string)

  datatype Message = Message(event: Event, analysis: Option<string>)

  datatype Check = Clear | Covered | CheckFailed

  /** A channel of a kind nobody delivers to, one whose secret cannot be read, a failure, a success;
      the last two are recorded as such. */
  datatype Outcome = NoNotifier | Unreadable | SendFailed | Sent

  /** Everything outside the dispatcher, constant over one call; answers that may differ from event
      to event take the event's position. */
  datatype Env = Env(
    channels: nat -> Option<seq<Channel>>, suppressor: bool, validId: string -> bool, check: nat -> Check,
    analysis: nat -> Option<string>, outcome: (nat, Channel) -> Outcome, fallback: bool, fallbackSent: nat -> bool)

  /** What one call does, in order; `at` is the position of the event. */
  datatype Effect =
    | LookedUp(org: nat)
    | Withheld(at: nat)
    | Delivered(at: nat, channel: Channel, message: Message, outcome: Outcome)
    | FellBack(at: nat, message: Message, sent: bool)

  // ---- one event ----

  predicate Suppressed(env: Env, ev: Event, at: nat) {
    env.suppressor && env.validId(ev.monitorId) && env.check(at) == Covered
  }

  function MessageOf(env: Env, ev: Event, at: nat): Message {
    Message(ev, if ev.firing then env.analysis(at) else None)
  }

  /** A failed lookup counts as no channels. */
  function ChannelsOf(env: Env, org: nat): seq<Channel> {
    match env.channels(org) case None => [] case Some(cs) => cs
  }

  function FanOut(env: Env, ev: Event, at: nat, channels: seq<Channel>): seq<Effect> {
    if channels == [] then []
    else
      var last := channels[|channels| - 1];
      FanOut(env, ev, at, channels[..|channels| - 1]) + [Delivered(at, last, MessageOf(env, ev, at), env.outcome(at, last))]
  }

  function Handled(env: Env, ev: Event, at: nat, channels: seq<Channel>): seq<Effect> {
    if ev.org == 0 then []
    else if Suppressed(env, ev, at) then [Withheld(at)]
    else if channels == [] then if env.fallback then [FellBack(at, MessageOf(env, ev, at), env.fallbackSent(at))] else []
    else FanOut(env, ev, at, channels)
  }

  // ---- the simple form: every event looks its channels up ----

  function ByEvent(env: Env, events: seq<Event>): seq<Effect> {
    if events == [] then []
    else
      var at := |events| - 1;
      ByEvent(env, events[..at]) + Handled(env, events[at], at, ChannelsOf(env, events[at].org))
  }

  // ---- the form with a cache ----

  predicate NeedsChannels(env: Env, ev: Event, at: nat) {
    ev.org != 0 && !Suppressed(env, ev, at)
  }

  /** One more event, with what is cached and what was done so far. */
  function Extended(env: Env, cache: map<nat, seq<Channel>>, done: seq<Effect>, ev: Event, at: nat): (map<nat, seq<Channel>>, seq<Effect>) {
    if !NeedsChannels(env, ev, at) then (cache, done + Handled(env, ev, at, []))
    else if ev.org in cache then (cache, done + Handled(env, ev, at, cache[ev.org]))
    else
      var channels := ChannelsOf(env, ev.org);
      (cache[ev.org := channels], done + [LookedUp(ev.org)] + Handled(env, ev, at, channels))
  }

  function Cached(env: Env, events: seq<Event>): (map<nat, seq<Channel>>, seq<Effect>) {
    if events == [] then (map[], [])
    else
      var (cache, done) := Cached(env, events[..|events| - 1]);
      Extended(env, cache, done, events[|events| - 1], |events| - 1)
  }

  function WithoutLookups(effects: seq<Effect>): seq<Effect> {
    if effects == [] then []
    else WithoutLookups(effects[..|effects| - 1])
         + if effects[|effects| - 1].LookedUp? then [] else [effects[|effects| - 1]]
  }

  function Lookups(effects: seq<Effect>): seq<nat> {
    if effects == [] then []
    else Lookups(effects[..|effects| - 1])
         + if effects[|effects| - 1].LookedUp? then [effects[|effects| - 1].org] else []
  }

  lemma {:induction false} LookupsSplit(a: seq<Effect>, b: seq<Effect>)
    ensures WithoutLookups(a + b) == WithoutLookups(a) + WithoutLookups(b)
    ensures Lookups(a + b) == Lookups(a) + Lookups(b)
  {
    if b == [] {
      assert a + b == a;
    } else {
      assert (a + b)[..|a + b| - 1] == a + b[..|b| - 1];
      LookupsSplit(a, b[..|b| - 1]);
    }
  }

  lemma {:induction false} NoLookupsInside(effects: seq<Effect>)
    requires forall e | e in effects :: !e.LookedUp?
    ensures WithoutLookups(effects) == effects && Lookups(effects) == []
  {
    if effects != [] {
      assert effects == effects[..|effects| - 1] + [effects[|effects| - 1]];
      assert effects[|effects| - 1] in effects && forall e | e in effects[..|effects| - 1] :: e in effects;
      NoLookupsInside(effects[..|effects| - 1]);
    }
  }

  lemma {:induction false} FanOutFacts(env: Env, ev: Event, at: nat, channels: seq<Channel>)
    ensures var out := FanOut(env, ev, at, channels);
            |out| == |channels|
            && forall i | 0 <= i < |channels| :: out[i] == Delivered(at, channels[i], MessageOf(env, ev, at), env.outcome(at, channels[i]))
  {
    if channels != [] {
      FanOutFacts(env, ev, at, channels[..|channels| - 1]);
    }
  }

  lemma HandledHasNoLookups(env: Env, ev: Event, at: nat, channels: seq<Channel>)
    ensures WithoutLookups(Handled(env, ev, at, channels)) == Handled(env, ev, at, channels) && Lookups(Handled(env, ev, at, channels)) == []
  {
    FanOutFacts(env, ev, at, channels);
    NoLookupsInside(Handled(env, ev, at, channels));
  }

  lemma ExtendedLookups(env: Env, cache: map<nat, seq<Channel>>, done: seq<Effect>, ev: Event, at: nat)
    requires forall org | org in cache :: cache[org] == ChannelsOf(env, org)
    ensures var (cache', done') := Extended(env, cache, done, ev, at);
            && WithoutLookups(done') == WithoutLookups(done) + Handled(env, ev, at, ChannelsOf(env, ev.org))
            && Lookups(done') == Lookups(done) + (if NeedsChannels(env, ev, at) && ev.org !in cache then [ev.org] else [])
            && cache' == if NeedsChannels(env, ev, at) then cache[ev.org := ChannelsOf(env, ev.org)] else cache
  {
    var channels := if NeedsChannels(env, ev, at) then ChannelsOf(env, ev.org) else [];
    var handled := Handled(env, ev, at, channels);
    assert handled == Handled(env, ev, at, ChannelsOf(env, ev.org));
    if NeedsChannels(env, ev, at) && ev.org !in cache {
      OneLookup(done, ev.org);
      HandledAfter(env, done + [LookedUp(ev.org)], ev, at, channels);
    } else {
      HandledAfter(env, done, ev, at, channels);
    }
  }

  lemma OneLookup(done: seq<Effect>, org: nat)
    ensures WithoutLookups(done + [LookedUp(org)]) == WithoutLookups(done)
    ensures Lookups(done + [LookedUp(org)]) == Lookups(done) + [org]
  {
    assert (done + [LookedUp(org)])[..|done|] == done;
  }

  lemma HandledAfter(env: Env, done: seq<Effect>, ev: Event, at: nat, channels: seq<Channel>)
    ensures WithoutLookups(done + Handled(env, ev, at, channels)) == WithoutLookups(done) + Handled(env, ev, at, channels)
    ensures Lookups(done + Handled(env, ev, at, channels)) == Lookups(done)
  {
    HandledHasNoLookups(env, ev, at, channels);
    LookupsSplit(done, Handled(env, ev, at, channels));
  }

  /** The cache changes nothing but the number of lookups. */
  lemma {:induction false} CacheRefinesLookups(env: Env, events: seq<Event>)
    ensures var (cache, effects) := Cached(env, events);
            WithoutLookups(effects) == ByEvent(env, events)
            && forall org | org in cache :: cache[org] == ChannelsOf(env, org)
  {
    if events != [] {
      var at := |events| - 1;
      CacheRefinesLookups(env, events[..at]);
      var (cache, done) := Cached(env, events[..at]);
      ExtendedLookups(env, cache, done, events[at], at);
    }
  }

  predicate NoRepeats(orgs: seq<nat>) {
    forall i, j | 0 <= i < j < |orgs| :: orgs[i] != orgs[j]
  }

  /** Maintenance is watched for, the event names a monitor, and the check made for it found it covered. */
  predicate Planned(env: Env, ev: Event, at: nat) {
    env.suppressor && env.validId(ev.monitorId) && env.check(at) == Covered
  }

  predicate GoesOut(env: Env, ev: Event, at: nat) {
    ev.org != 0 && !Planned(env, ev, at)
  }

  predicate Needed(env: Env, events: seq<Event>, org: nat) {
    exists i :: 0 <= i < |events| && events[i].org == org && GoesOut(env, events[i], i)
  }

  lemma NeededSnoc(env: Env, events: seq<Event>, org: nat)
    requires events != []
    ensures var at := |events| - 1;
            Needed(env, events, org) <==> Needed(env, events[..at], org) || (events[at].org == org && GoesOut(env, events[at], at))
  {
    var at := |events| - 1;
    if Needed(env, events[..at], org) {
      var i :| 0 <= i < at && events[..at][i].org == org && GoesOut(env, events[..at][i], i);
      assert events[i].org == org && GoesOut(env, events[i], i);
    }
    if Needed(env, events, org) {
      var i :| 0 <= i < |events| && events[i].org == org && GoesOut(env, events[i], i);
      assert i < at ==> events[..at][i] == events[i];
    }
  }

  /** Each organization's channels are looked up once if one of its events needs them, and otherwise
      not at all. */
  lemma {:induction false} OneLookupPerOrg(env: Env, events: seq<Event>)
    ensures var (cache, effects) := Cached(env, events);
            NoRepeats(Lookups(effects))
            && forall org :: (org in Lookups(effects) <==> org in cache) && (org in cache <==> Needed(env, events, org))
  {
    if events != [] {
      var at := |events| - 1;
      OneLookupPerOrg(env, events[..at]);
      CacheRefinesLookups(env, events[..at]);
      var (cache, done) := Cached(env, events[..at]);
      ExtendedLookups(env, cache, done, events[at], at);
      forall org ensures Needed(env, events, org) <==> org in Cached(env, events).0 {
        NeededSnoc(env, events, org);
      }
    }
  }

  // ---- what becomes of each event ----

  /** What was done for the event at a position. */
  function DoneFor(effects: seq<Effect>, at: nat): seq<Effect> {
    if effects == [] then []
    else
      var last := effects[|effects| - 1];
      DoneFor(effects[..|effects| - 1], at) + if !last.LookedUp? && last.at == at then [last] else []
  }

  lemma {:induction false} DoneForSplits(a: seq<Effect>, b: seq<Effect>, at: nat)
    ensures DoneFor(a + b, at) == DoneFor(a, at) + DoneFor(b, at)
  {
    if b == [] {
      assert a + b == a;
    } else {
      assert (a + b)[..|a + b| - 1] == a + b[..|b| - 1];
      DoneForSplits(a, b[..|b| - 1], at);
    }
  }

  lemma {:induction false} DoneForUniform(effects: seq<Effect>, at: nat, owner: nat)
    requires forall e | e in effects :: !e.LookedUp? && e.at == owner
    ensures DoneFor(effects, at) == if at == owner then effects else []
  {
    if effects != [] {
      assert effects == effects[..|effects| - 1] + [effects[|effects| - 1]];
      assert effects[|effects| - 1] in effects && forall e | e in effects[..|effects| - 1] :: e in effects;
      DoneForUniform(effects[..|effects| - 1], at, owner);
    }
  }

  lemma HandledIsTagged(env: Env, ev: Event, owner: nat, channels: seq<Channel>, at: nat)
    ensures DoneFor(Handled(env, ev, owner, channels), at) == if at == owner then Handled(env, ev, owner, channels) else []
  {
    FanOutFacts(env, ev, owner, channels);
    DoneForUniform(Handled(env, ev, owner, channels), at, owner);
  }

  lemma {:induction false} DoneForEvent(env: Env, events: seq<Event>, at: nat)
    ensures DoneFor(ByEvent(env, events), at)
         == if at < |events| then Handled(env, events[at], at, ChannelsOf(env, events[at].org)) else []
  {
    if events != [] {
      var rest, last := events[..|events| - 1], |events| - 1;
      DoneForEvent(env, rest, at);
      assert at < last ==> rest[at] == events[at];
      DoneForMore(env, ByEvent(env, rest), events[last], last, ChannelsOf(env, events[last].org), at);
    }
  }

  lemma DoneForMore(env: Env, earlier: seq<Effect>, ev: Event, owner: nat, channels: seq<Channel>, at: nat)
    ensures DoneFor(earlier + Handled(env, ev, owner, channels), at)
         == DoneFor(earlier, at) + if at == owner then Handled(env, ev, owner, channels) else []
  {
    DoneForSplits(earlier, Handled(env, ev, owner, channels), at);
    HandledIsTagged(env, ev, owner, channels, at);
  }

  lemma {:induction false} LookupsDoNothing(effects: seq<Effect>, at: nat)
    ensures DoneFor(WithoutLookups(effects), at) == DoneFor(effects, at)
  {
    if effects != [] {
      var rest, last := effects[..|effects| - 1], effects[|effects| - 1];
      LookupsDoNothing(rest, at);
      if !last.LookedUp? {
        DoneForSplits(WithoutLookups(rest), [last], at);
        assert DoneFor([last], at) == if last.at == at then [last] else [];
      } else {
        assert WithoutLookups(effects) == WithoutLookups(rest);
      }
    }
  }

  /** The three fates of an event that has an organization. */
  predicate IsWithheld(done: seq<Effect>, at: nat) {
    done == [Withheld(at)]
  }

  predicate IsFannedOut(done: seq<Effect>, at: nat, channels: seq<Channel>) {
    && channels != [] && |done| == |channels|
    && forall i | 0 <= i < |channels| :: done[i].Delivered? && done[i].at == at && done[i].channel == channels[i]
  }

  predicate IsLeftToFallback(done: seq<Effect>, at: nat, channels: seq<Channel>, fallback: bool) {
    && channels == []
    && if fallback then |done| == 1 && done[0].FellBack? && done[0].at == at else done == []
  }

  /** Whatever goes out says the event, with the analysis of it if it fires and with none if it is over,
      and the record says how it turned out. */
  predicate SaysTheEvent(env: Env, ev: Event, at: nat, e: Effect) {
    && (e.Delivered? || e.FellBack? ==> e.message.event == ev && (ev.firing ==> e.message.analysis == env.analysis(at))
                                        && (!ev.firing ==> e.message.analysis == None))
    && (e.Delivered? ==> e.outcome == env.outcome(at, e.channel))
    && (e.FellBack? ==> e.sent == env.fallbackSent(at))
  }

  /** Withheld exactly if it was planned for, otherwise sent out or left to the fallback. */
  predicate HasItsFate(env: Env, ev: Event, at: nat, channels: seq<Channel>, done: seq<Effect>) {
    var planned := Planned(env, ev, at);
    && (IsWithheld(done, at) <==> planned)
    && (IsFannedOut(done, at, channels) <==> !planned && channels != [])
    && (!planned && channels == [] ==> IsLeftToFallback(done, at, channels, env.fallback))
    && (IsLeftToFallback(done, at, channels, env.fallback) ==> !IsWithheld(done, at) && !IsFannedOut(done, at, channels))
    && (forall i | 0 <= i < |done| :: SaysTheEvent(env, ev, at, done[i]))
  }

  lemma HandledHasOneFate(env: Env, ev: Event, at: nat, channels: seq<Channel>)
    requires ev.org != 0
    ensures HasItsFate(env, ev, at, channels, Handled(env, ev, at, channels))
  {
    FanOutFacts(env, ev, at, channels);
  }

  /** Every event that has an organization is recorded as withheld, and then only that, exactly when
      maintenance covers it; otherwise it goes to all channels of the organization once, or to the
      fallback if there are none. An event without an organization is dropped. */
  lemma EachEventHasOneFate(env: Env, events: seq<Event>, at: nat)
    requires at < |events|
    ensures var done := DoneFor(Cached(env, events).1, at);
            if events[at].org == 0 then done == []
            else HasItsFate(env, events[at], at, ChannelsOf(env, events[at].org), done)
  {
    CacheRefinesLookups(env, events);
    LookupsDoNothing(Cached(env, events).1, at);
    DoneForEvent(env, events, at);
    if events[at].org != 0 {
      HandledHasOneFate(env, events[at], at, ChannelsOf(env, events[at].org));
    }
  }

  // ---- what cannot interfere ----

  function Forgiving(check: nat -> Check): nat -> Check {
    (at: nat) => if check(at) == CheckFailed then Clear else check(at)
  }

  lemma {:induction false} FanOutIgnoresChecks(env: Env, check: nat -> Check, ev: Event, at: nat, channels: seq<Channel>)
    ensures FanOut(env.(check := check), ev, at, channels) == FanOut(env, ev, at, channels)
  {
    if channels != [] {
      FanOutIgnoresChecks(env, check, ev, at, channels[..|channels| - 1]);
    }
  }

  /** A maintenance check that fails is as good as one that finds no window. */
  lemma {:induction false} FailedChecksNeverSuppress(env: Env, events: seq<Event>)
    ensures Cached(env.(check := Forgiving(env.check)), events) == Cached(env, events)
  {
    if events != [] {
      var at, ev := |events| - 1, events[|events| - 1];
      var forgiving := env.(check := Forgiving(env.check));
      FailedChecksNeverSuppress(env, events[..at]);
      assert Suppressed(forgiving, ev, at) == Suppressed(env, ev, at);
      assert ChannelsOf(forgiving, ev.org) == ChannelsOf(env, ev.org);
      forall channels ensures Handled(forgiving, ev, at, channels) == Handled(env, ev, at, channels) {
        FanOutIgnoresChecks(env, Forgiving(env.check), ev, at, channels);
      }
    }
  }

  /** How deliveries to one channel turned out, blotted out. */
  function Blotted(effects: seq<Effect>, channel: Channel): seq<Effect> {
    if effects == [] then []
    else
      var last := effects[|effects| - 1];
      Blotted(effects[..|effects| - 1], channel)
      + [if last.Delivered? && last.channel == channel then last.(outcome := Sent) else last]
  }

  lemma {:induction false} BlottedSplits(a: seq<Effect>, b: seq<Effect>, channel: Channel)
    ensures Blotted(a + b, channel) == Blotted(a, channel) + Blotted(b, channel)
  {
    if b == [] {
      assert a + b == a;
    } else {
      assert (a + b)[..|a + b| - 1] == a + b[..|b| - 1];
      BlottedSplits(a, b[..|b| - 1], channel);
    }
  }

  ghost predicate SameButFor(env: Env, env': Env, channel: Channel) {
    && env' == env.(outcome := env'.outcome)
    && forall at, c | c != channel :: env'.outcome(at, c) == env.outcome(at, c)
  }

  lemma {:induction false} FanOutBlotted(env: Env, env': Env, ev: Event, at: nat, channels: seq<Channel>, channel: Channel)
    requires SameButFor(env, env', channel)
    ensures Blotted(FanOut(env', ev, at, channels), channel) == Blotted(FanOut(env, ev, at, channels), channel)
  {
    if channels != [] {
      var rest, last := channels[..|channels| - 1], channels[|channels| - 1];
      FanOutBlotted(env, env', ev, at, rest, channel);
      var d := Delivered(at, last, MessageOf(env, ev, at), env.outcome(at, last));
      var d' := Delivered(at, last, MessageOf(env', ev, at), env'.outcome(at, last));
      BlottedSplits(FanOut(env, ev, at, rest), [d], channel);
      BlottedSplits(FanOut(env', ev, at, rest), [d'], channel);
      assert Blotted([d], channel) == Blotted([d'], channel) by {
        assert [d][..0] == [] && [d'][..0] == [];
      }
    }
  }

  lemma HandledBlotted(env: Env, env': Env, ev: Event, at: nat, channels: seq<Channel>, channel: Channel)
    requires SameButFor(env, env', channel)
    ensures Blotted(Handled(env', ev, at, channels), channel) == Blotted(Handled(env, ev, at, channels), channel)
  {
    FanOutBlotted(env, env', ev, at, channels, channel);
  }

  lemma BlottedMore(env: Env, env': Env, done: seq<Effect>, done': seq<Effect>, ev: Event, at: nat, channels: seq<Channel>, channel: Channel)
    requires SameButFor(env, env', channel) && Blotted(done', channel) == Blotted(done, channel)
    ensures Blotted(done' + Handled(env', ev, at, channels), channel) == Blotted(done + Handled(env, ev, at, channels), channel)
  {
    HandledBlotted(env, env', ev, at, channels, channel);
    BlottedSplits(done, Handled(env, ev, at, channels), channel);
    BlottedSplits(done', Handled(env', ev, at, channels), channel);
  }

  lemma BlottedExtended(env: Env, env': Env, cache: map<nat, seq<Channel>>, done: seq<Effect>, done': seq<Effect>,
                        ev: Event, at: nat, channel: Channel)
    requires SameButFor(env, env', channel) && Blotted(done', channel) == Blotted(done, channel)
    ensures Extended(env', cache, done', ev, at).0 == Extended(env, cache, done, ev, at).0
    ensures Blotted(Extended(env', cache, done', ev, at).1, channel) == Blotted(Extended(env, cache, done, ev, at).1, channel)
  {
    var channels := ChannelsOf(env, ev.org);
    if !NeedsChannels(env, ev, at) {
      BlottedMore(env, env', done, done', ev, at, [], channel);
    } else if ev.org in cache {
      BlottedMore(env, env', done, done', ev, at, cache[ev.org], channel);
    } else {
      BlottedSplits(done, [LookedUp(ev.org)], channel);
      BlottedSplits(done', [LookedUp(ev.org)], channel);
      BlottedMore(env, env', done + [LookedUp(ev.org)], done' + [LookedUp(ev.org)], ev, at, channels, channel);
    }
  }

  /** However deliveries to one channel turn out, everything else happens just the same: the same
      lookups, records, messages and outcomes for all others, and the same attempts at this one. It
      rests on the loop using a delivery's outcome for nothing but its record: no outcome ends the
      fan-out, is passed on to a later channel or event, or changes what is looked up. */
  lemma {:induction false} OneFailingChannelChangesNothingElse(env: Env, env': Env, events: seq<Event>, channel: Channel)
    requires SameButFor(env, env', channel)
    ensures Cached(env', events).0 == Cached(env, events).0
    ensures Blotted(Cached(env', events).1, channel) == Blotted(Cached(env, events).1, channel)
  {
    if events != [] {
      var at := |events| - 1;
      OneFailingChannelChangesNothingElse(env, env', events[..at], channel);
      var (cache, done) := Cached(env, events[..at]);
      BlottedExtended(env, env', cache, done, Cached(env', events[..at]).1, events[at], at, channel);
    }
  }

  // ---- the loop ----

  method Deliver(env: Env, ev: Event, at: nat, channels: seq<Channel>) returns (out: seq<Effect>)
    ensures out == FanOut(env, ev, at, channels)
  {
    var message := MessageOf(env, ev, at);
    out := [];
    for i := 0 to |channels|
      invariant out == FanOut(env, ev, at, channels[..i])
    {
      assert channels[..i + 1][..i] == channels[..i];
      out := out + [Delivered(at, channels[i], message, env.outcome(at, channels[i]))];
    }
    assert channels[..|channels|] == channels;
  }

  method DispatchAlerts(env: Env, events: seq<Event>) returns (effects: seq<Effect>)
    ensures effects == Cached(env, events).1
  {
    var channelsByOrg: map<nat, seq<Channel>> := map[];
    effects := [];
    for at := 0 to |events|
      invariant (channelsByOrg, effects) == Cached(env, events[..at])
    {
      assert events[..at + 1][..at] == events[..at];
      var ev := events[at];
      var out := [];
      if ev.org == 0 {
        assert effects == effects + out;
        continue;
      }
      if env.suppressor && env.validId(ev.monitorId) {
        if env.check(at) == Covered {
          effects := effects + [Withheld(at)];
          continue;
        }
      }
      if ev.org !in channelsByOrg {
        var found := env.channels(ev.org);
        effects := effects + [LookedUp(ev.org)];
        channelsByOrg := channelsByOrg[ev.org := if found.Some? then found.value else []];
      }
      var channels := channelsByOrg[ev.org];
      if channels == [] {
        if env.fallback {
          out := [FellBack(at, MessageOf(env, ev, at), env.fallbackSent(at))];
        }
      } else {
        out := Deliver(env, ev, at, channels);
      }
      effects := effects + out;
    }
    assert events[..|events|] == events;
  }
}
