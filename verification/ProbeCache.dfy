/**
 The probe caches of the encoder module: lookups and stores take the lock, probes do
 not, and a reset starts a new generation so that a probe begun before it is not stored.
 */
module ProbeCache {
  import opened Wrappers

  /** The encoder list, or the speed presets of one encoder. */
  datatype Key = EncoderList | PresetsOf(encoder: string)

  type Names = seq<string>

  /** What the lock protects. */
  datatype Shared = Shared(cache: map<Key, Names>, generation: nat)

  function StoredIn(sh: Shared, key: Key, gen: nat, names: Names): Shared {
    if sh.generation == gen then sh.(cache := sh.cache[key := names]) else sh
  }

  function ResetOf(sh: Shared): Shared {
    Shared(map[], sh.generation + 1)
  }

  /** The module globals, updated under the lock. */
  class Globals {
    var encoders: Option<Names>
    var presets: map<string, Names>
    var generation: nat

    ghost function PresetEntries(): map<Key, Names>
      reads this`presets
    {
      map e | e in presets :: PresetsOf(e) := presets[e]
    }

    ghost function Entries(): map<Key, Names>
      reads this`presets, this`encoders
    {
      if encoders.Some? then PresetEntries()[EncoderList := encoders.value] else PresetEntries()
    }

    ghost function View(): Shared
      reads this
    {
      Shared(Entries(), generation)
    }

    constructor ()
      ensures View() == Shared(map[], 0)
    {
      encoders, presets, generation := None, map[], 0;
    }

    /** The first critical section of a probe: a hit, or the generation to probe for. */
    method Lookup(key: Key) returns (hit: Option<Names>, gen: nat)
      ensures hit == if key in View().cache then Some(View().cache[key]) else None
      ensures gen == generation
    {
      gen := generation;
      match key {
        case EncoderList => hit := encoders;
        case PresetsOf(e) => hit := if e in presets then Some(presets[e]) else None;
      }
    }

    /** The second one: store, unless the cache was reset since. */
    method Store(key: Key, gen: nat, names: Names)
      modifies this
      ensures View() == StoredIn(old(View()), key, gen, names)
      ensures View() == if old(generation) == gen then Shared(old(View()).cache[key := names], gen) else old(View())
    {
      if generation == gen {
        match key {
          case EncoderList => StoreEncoders(names);
          case PresetsOf(e) =>
            StorePresets(e, names);
            if encoders.Some? {
              Commutes(old(PresetEntries()), e, names, encoders.value);
            }
        }
      }
    }

    method StoreEncoders(names: Names)
      modifies this`encoders
      ensures Entries() == old(Entries())[EncoderList := names]
    {
      encoders := Some(names);
      if old(encoders).Some? {
        ghost var entries, was := PresetEntries(), old(encoders).value;
        assert entries[EncoderList := names] == entries[EncoderList := was][EncoderList := names];
      }
    }

    method StorePresets(e: string, names: Names)
      modifies this`presets
      ensures PresetEntries() == old(PresetEntries())[PresetsOf(e) := names]
    {
      presets := presets[e := names];
    }

    lemma Commutes(entries: map<Key, Names>, e: string, names: Names, list: Names)
      ensures entries[PresetsOf(e) := names][EncoderList := list] == entries[EncoderList := list][PresetsOf(e) := names]
    {
    }

    method Reset()
      modifies this
      ensures View() == ResetOf(old(View())) == Shared(map[], old(generation) + 1)
    {
      encoders := None;
      presets := map[];
      generation := generation + 1;
    }
  }

  // ---- any number of threads ---------------------------------------------

  /** A thread between calls, probing, holding an answer, or returning a result.  `since`
      is auxiliary: how many resets there had been when its call looked the cache up. */
  datatype Pc =
    | Idle
    | Probing(key: Key, gen: nat, since: nat)
    | Answered(key: Key, gen: nat, since: nat, names: Names)
    | Returning(key: Key, gen: nat, since: nat, names: Names)

  /** `resets` is auxiliary: the number of resets so far, counted by the run and not by the
      generation. */
  datatype State = State(sh: Shared, threads: seq<Pc>, resets: nat)

  datatype Label = Lookup(t: nat, key: Key) | Probe(t: nat, names: Names) | Store(t: nat) | Return(t: nat) | Reset

  /** What a probe answers when it begins and ends between the same two resets. */
  type World = (nat, Key) -> Names

  predicate Enabled(w: World, s: State, l: Label) {
    match l
    case Lookup(t, _) => t < |s.threads| && s.threads[t].Idle?
    case Probe(t, names) =>
      t < |s.threads| && s.threads[t].Probing? &&
      (s.threads[t].since == s.resets ==> names == w(s.threads[t].since, s.threads[t].key))
    case Store(t) => t < |s.threads| && s.threads[t].Answered?
    case Return(t) => t < |s.threads| && s.threads[t].Returning?
    case Reset => true
  }

  function After(w: World, s: State, l: Label): State
    requires Enabled(w, s, l)
  {
    match l
    case Lookup(t, key) =>
      s.(threads := s.threads[t := if key in s.sh.cache then Returning(key, s.sh.generation, s.resets, s.sh.cache[key])
                                   else Probing(key, s.sh.generation, s.resets)])
    case Probe(t, names) =>
      var Probing(key, gen, since) := s.threads[t];
      s.(threads := s.threads[t := Answered(key, gen, since, names)])
    case Store(t) =>
      var Answered(key, gen, since, names) := s.threads[t];
      s.(sh := StoredIn(s.sh, key, gen, names), threads := s.threads[t := Returning(key, gen, since, names)])
    case Return(t) => s.(threads := s.threads[t := Idle])
    case Reset => s.(sh := ResetOf(s.sh), resets := s.resets + 1)
  }

  ghost predicate Run(w: World, s: State, ls: seq<Label>, t: State)
    decreases |ls|
  {
    if ls == [] then s == t
    else
      var n := |ls| - 1;
      exists u :: Run(w, s, ls[..n], u) && Enabled(w, u, ls[n]) && t == After(w, u, ls[n])
  }

  function Initial(threads: nat): State {
    State(Shared(map[], 0), seq(threads, _ => Idle), 0)
  }

  /** The resets in a run. */
  function Resets(ls: seq<Label>): nat {
    if ls == [] then 0 else Resets(ls[..|ls| - 1]) + if ls[|ls| - 1].Reset? then 1 else 0
  }

  // ---- the invariant -----------------------------------------------------

  /** The run holds a lookup of `k` after its last reset. */
  ghost predicate LookedUp(ls: seq<Label>, k: Key) {
    exists i :: 0 <= i < |ls| && IsLookup(ls[i], k) && Resets(ls[i..]) == 0
  }

  predicate IsLookup(l: Label, k: Key) {
    l.Lookup? && l.key == k
  }

  /** A call that no reset has overtaken holds a current answer, or will. */
  ghost predicate Sound(w: World, s: State, ls: seq<Label>, pc: Pc) {
    match pc
    case Idle => true
    case Probing(key, gen, since) =>
      gen <= s.sh.generation && (gen == s.sh.generation <==> since == s.resets)
      && (since == s.resets ==> LookedUp(ls, key))
    case Answered(key, gen, since, names) =>
      gen <= s.sh.generation && (gen == s.sh.generation <==> since == s.resets)
      && (since == s.resets ==> LookedUp(ls, key) && names == w(since, key))
    case Returning(key, gen, since, names) =>
      since <= s.resets && (since == s.resets ==> names == w(since, key))
  }

  ghost predicate Inv(w: World, s: State, ls: seq<Label>) {
    && s.resets == Resets(ls)
    && (forall k :: k in s.sh.cache ==> LookedUp(ls, k) && s.sh.cache[k] == w(s.resets, k))
    && (forall t :: 0 <= t < |s.threads| ==> SinceOk(s, s.threads[t]) && Sound(w, s, ls, s.threads[t]))
  }

  predicate SinceOk(s: State, pc: Pc) {
    pc.Idle? || pc.since <= s.resets
  }

  /** A step that is no reset keeps every lookup after the last one. */
  lemma {:induction false} LookedUpKept(ls: seq<Label>, l: Label, k: Key)
    requires LookedUp(ls, k) && !l.Reset?
    ensures LookedUp(ls + [l], k)
  {
    var i :| 0 <= i < |ls| && IsLookup(ls[i], k) && Resets(ls[i..]) == 0;
    var r := (ls + [l])[i..];
    assert r == ls[i..] + [l] && r[..|r| - 1] == ls[i..];
    assert (ls + [l])[i] == ls[i];
  }

  lemma {:induction false} LookupIsLookedUp(ls: seq<Label>, l: Label, k: Key)
    requires IsLookup(l, k)
    ensures LookedUp(ls + [l], k)
  {
    var r := ls + [l];
    assert r[|ls|..] == [l] && [l][..0] == [] && r[|ls|] == l;
    assert Resets([l]) == Resets([]) + 0;
  }

  lemma {:induction false} SoundKept(w: World, s: State, ls: seq<Label>, l: Label, t: nat)
    requires Inv(w, s, ls) && Enabled(w, s, l) && t < |s.threads|
    ensures var u := After(w, s, l);
            t < |u.threads| && SinceOk(u, u.threads[t]) && Sound(w, u, ls + [l], u.threads[t])
  {
    var pc := s.threads[t];
    if !l.Reset? {
      if (pc.Probing? || pc.Answered?) && pc.since == s.resets {
        LookedUpKept(ls, l, pc.key);
      }
      if l.Lookup? && l.t == t {
        LookupIsLookedUp(ls, l, l.key);
      }
    }
  }

  lemma {:induction false} InvKept(w: World, s: State, ls: seq<Label>, l: Label)
    requires Inv(w, s, ls) && Enabled(w, s, l)
    ensures Inv(w, After(w, s, l), ls + [l])
  {
    var u := After(w, s, l);
    assert (ls + [l])[..|ls|] == ls;
    forall t | 0 <= t < |u.threads|
      ensures SinceOk(u, u.threads[t]) && Sound(w, u, ls + [l], u.threads[t])
    {
      SoundKept(w, s, ls, l, t);
    }
    forall k | k in u.sh.cache ensures LookedUp(ls + [l], k) && u.sh.cache[k] == w(u.resets, k) {
      if k in s.sh.cache {
        LookedUpKept(ls, l, k);
      }
      if l.Store? && s.threads[l.t].key == k && s.threads[l.t].gen == s.sh.generation {
        LookedUpKept(ls, l, k);
      }
    }
  }

  lemma {:induction false} RunInv(w: World, n: nat, ls: seq<Label>, s: State)
    requires Run(w, Initial(n), ls, s)
    ensures Inv(w, s, ls)
    decreases |ls|
  {
    if ls != [] {
      var m := |ls| - 1;
      var u :| Run(w, Initial(n), ls[..m], u) && Enabled(w, u, ls[m]) && s == After(w, u, ls[m]);
      RunInv(w, n, ls[..m], u);
      InvKept(w, u, ls[..m], ls[m]);
      assert ls[..m] + [ls[m]] == ls;
    }
  }

  // ---- what the guard is for ---------------------------------------------

  /** A lookup is answered from the cache exactly when the key is there. */
  lemma HitNeedsNoProbe(w: World, s: State, t: nat, key: Key)
    requires Enabled(w, s, Lookup(t, key))
    ensures var pc := After(w, s, Lookup(t, key)).threads[t];
            if key in s.sh.cache then pc.Returning? && pc.names == s.sh.cache[key] else pc.Probing?
  {
  }

  /** A probe's answer is cached exactly when no reset came since its call's lookup, and
      then nothing else changes. */
  lemma StoredIffCurrent(w: World, n: nat, ls: seq<Label>, s: State, t: nat)
    requires Run(w, Initial(n), ls, s) && Enabled(w, s, Store(t))
    ensures var pc := s.threads[t];
            After(w, s, Store(t)).sh.cache ==
            if pc.since == Resets(ls) then s.sh.cache[pc.key := pc.names] else s.sh.cache
  {
    RunInv(w, n, ls, s);
    assert Sound(w, s, ls, s.threads[t]);
  }

  /** Under any interleaving of probes and resets, every cached answer came from a call that
      looked the cache up after the run's last reset, and is what a direct probe would
      answer now. */
  lemma CacheIsCurrent(w: World, n: nat, ls: seq<Label>, s: State, k: Key)
    requires Run(w, Initial(n), ls, s) && k in s.sh.cache
    ensures exists i :: 0 <= i < |ls| && IsLookup(ls[i], k) && Resets(ls[i..]) == 0
    ensures s.sh.cache[k] == w(Resets(ls), k)
  {
    RunInv(w, n, ls, s);
  }

  lemma {:induction false} RunConcat(w: World, n: nat, a: seq<Label>, s: State, b: seq<Label>, t: State)
    requires Run(w, Initial(n), a, s) && Run(w, s, b, t)
    ensures Run(w, Initial(n), a + b, t)
    decreases |b|
  {
    if b == [] {
      assert a + b == a;
    } else {
      var m := |b| - 1;
      var u :| Run(w, s, b[..m], u) && Enabled(w, u, b[m]) && t == After(w, u, b[m]);
      RunConcat(w, n, a, s, b[..m], u);
      assert (a + b)[..|a + b| - 1] == a + b[..m];
    }
  }

  /** The call that thread `t` is in. */
  predicate InCall(s: State, t: nat, key: Key, since: nat) {
    t < |s.threads| && !s.threads[t].Idle? && s.threads[t].key == key && s.threads[t].since == since
  }

  lemma {:induction false} CallGoesOn(w: World, s: State, ls: seq<Label>, u: State, t: nat, key: Key, since: nat)
    requires Run(w, s, ls, u) && InCall(s, t, key, since)
    requires Return(t) !in ls && Reset !in ls
    ensures InCall(u, t, key, since) && u.resets == s.resets
    decreases |ls|
  {
    if ls != [] {
      var m := |ls| - 1;
      var v :| Run(w, s, ls[..m], v) && Enabled(w, v, ls[m]) && u == After(w, v, ls[m]);
      assert ls[m] in ls && forall l :: l in ls[..m] ==> l in ls;
      CallGoesOn(w, s, ls[..m], v, t, key, since);
    }
  }

  /** A call that no reset overtakes returns what a direct probe would, whether it hit the
      cache or not, and whatever others reset or stored before and store meanwhile. */
  lemma CallIsDirectProbe(w: World, n: nat, before: seq<Label>, s: State, t: nat, key: Key, ls: seq<Label>, u: State)
    requires Run(w, Initial(n), before, s) && Enabled(w, s, Lookup(t, key))
    requires Run(w, After(w, s, Lookup(t, key)), ls, u)
    requires Return(t) !in ls && Reset !in ls && t < |u.threads| && u.threads[t].Returning?
    ensures u.threads[t].key == key && u.threads[t].names == w(Resets(before), key)
  {
    RunInv(w, n, before, s);
    var v := After(w, s, Lookup(t, key));
    CallGoesOn(w, v, ls, u, t, key, s.resets);
    var all := before + [Lookup(t, key)];
    assert all[..|all| - 1] == before;
    assert Run(w, Initial(n), all, v);
    RunConcat(w, n, all, v, ls, u);
    RunInv(w, n, all + ls, u);
    assert Sound(w, u, all + ls, u.threads[t]);
  }
}
