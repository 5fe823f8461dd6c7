/** The rolling-window health tracker (internal/health/tracker.go). */
module Health {
  import opened Prelude
  import Registry
  import PolicyTypes
  import Engine

  const WINDOW := 100
  const MIN_ATTEMPTS := 5

  /** How many outcomes of a sequence are successes. */
  function Successes(s: seq<bool>): nat {
    if s == [] then 0 else Successes(s[..|s| - 1]) + if s[|s| - 1] then 1 else 0
  }

  lemma {:induction false} SuccessesConcat(a: seq<bool>, b: seq<bool>)
    ensures Successes(a + b) == Successes(a) + Successes(b)
  {
    if b == [] {
      assert a + b == a;
    } else {
      SuccessesConcat(a, b[..|b| - 1]);
      assert (a + b)[..|a + b| - 1] == a + b[..|b| - 1];
    }
  }

  /** The outcomes that count: the last hundred, or all when there are fewer. */
  function Recent(history: seq<bool>): seq<bool> {
    if |history| <= WINDOW then history else history[|history| - WINDOW..]
  }

  /** The documented score: optimistic before five outcomes, then the share of successes among the recent ones. */
  function Score(history: seq<bool>): real {
    if |history| < MIN_ATTEMPTS then 1.0 else Successes(Recent(history)) as real / |Recent(history)| as real
  }

  /** Outcome `j` sits in the slot it is congruent to. */
  lemma SlotIs(slots: seq<bool>, history: seq<bool>, i: nat, j: nat)
    requires |slots| == WINDOW && |history| - WINDOW <= j < |history| && i < WINDOW && (j - i) % WINDOW == 0
    requires forall k :: 0 <= k < |history| && |history| - WINDOW <= k ==> slots[k % WINDOW] == history[k]
    ensures slots[i] == history[j]
  {
    assert j % WINDOW == i;
  }

  lemma Aligned(n: nat)
    requires n > WINDOW
    ensures (n - n % WINDOW) % WINDOW == 0 && (n - WINDOW - n % WINDOW) % WINDOW == 0 && n % WINDOW < WINDOW
  {
  }

  /** A full ring holds the newest outcomes up to the next slot to write, and older ones from there on. */
  lemma RingSlots(slots: seq<bool>, history: seq<bool>, r: nat)
    requires |slots| == WINDOW < |history| && r == |history| % WINDOW
    requires forall k :: 0 <= k < |history| && |history| - WINDOW <= k ==> slots[k % WINDOW] == history[k]
    ensures r < WINDOW
    ensures forall i :: 0 <= i < r ==> slots[i] == history[|history| - r + i]
    ensures forall i :: r <= i < WINDOW ==> slots[i] == history[|history| - WINDOW - r + i]
  {
    Aligned(|history|);
    forall i | 0 <= i < r ensures slots[i] == history[|history| - r + i] {
      SlotIs(slots, history, i, |history| - r + i);
    }
    forall i | r <= i < WINDOW ensures slots[i] == history[|history| - WINDOW - r + i] {
      SlotIs(slots, history, i, |history| - WINDOW - r + i);
    }
  }

  /** A full ring is a rotation of the recent outcomes. */
  lemma FullRing(slots: seq<bool>, history: seq<bool>)
    requires |slots| == WINDOW < |history|
    requires forall k :: 0 <= k < |history| && |history| - WINDOW <= k ==> slots[k % WINDOW] == history[k]
    ensures Successes(slots) == Successes(Recent(history))
  {
    var r := |history| % WINDOW;
    RingSlots(slots, history, r);
    Rotation(slots, history, r);
  }

  lemma Rotation(slots: seq<bool>, history: seq<bool>, r: nat)
    requires |slots| == WINDOW < |history| && r < WINDOW
    requires forall i :: 0 <= i < r ==> slots[i] == history[|history| - r + i]
    requires forall i :: r <= i < WINDOW ==> slots[i] == history[|history| - WINDOW - r + i]
    ensures Successes(slots) == Successes(Recent(history))
  {
    var newer, older := history[|history| - r..], history[|history| - WINDOW..|history| - r];
    RotationParts(slots, history, r);
    hide Successes;
    SuccessesConcat(newer, older);
    SuccessesConcat(older, newer);
  }

  lemma RotationParts(slots: seq<bool>, history: seq<bool>, r: nat)
    requires |slots| == WINDOW < |history| && r < WINDOW
    requires forall i :: 0 <= i < r ==> slots[i] == history[|history| - r + i]
    requires forall i :: r <= i < WINDOW ==> slots[i] == history[|history| - WINDOW - r + i]
    ensures var newer, older := history[|history| - r..], history[|history| - WINDOW..|history| - r];
            slots == newer + older && Recent(history) == older + newer
  {
    var newer, older := history[|history| - r..], history[|history| - WINDOW..|history| - r];
    assert |newer + older| == |slots|;
    forall i | 0 <= i < |slots| ensures slots[i] == (newer + older)[i] {
    }
  }

  /** The ring of one provider: a fixed buffer, the next position to write, the number of slots in use. */
  class ProviderWindow {
    const buf: array<bool>
    var head: nat
    var total: nat
    ghost var history: seq<bool>

    ghost predicate Valid()
      reads this, buf
    {
      && buf.Length == WINDOW
      && head == |history|
      && total == (if |history| < WINDOW then |history| else WINDOW)
      && forall j :: 0 <= j < |history| && |history| - WINDOW <= j ==> buf[j % WINDOW] == history[j]
    }

    constructor ()
      ensures Valid() && history == [] && fresh(buf)
    {
      buf := new bool[WINDOW];
      head, total, history := 0, 0, [];
    }

    method Add(success: bool)
      requires Valid()
      modifies this, buf
      ensures Valid() && history == old(history) + [success]
    {
      buf[head % WINDOW] := success;
      SlotsApart(head);
      head := head + 1;
      if total < WINDOW {
        total := total + 1;
      }
      history := history + [success];
    }

    /** Among the slots in use there are as many successes as among the recent outcomes. */
    lemma SlotsHoldRecent()
      requires Valid()
      ensures total == |Recent(history)| && Successes(buf[..total]) == Successes(Recent(history))
    {
      if |history| <= WINDOW {
        assert buf[..total] == history by {
          forall j | 0 <= j < |history| ensures buf[j] == history[j] {
            assert |history| - WINDOW <= j && (j == j % WINDOW);
          }
        }
      } else {
        assert buf[..total] == buf[..];
        FullRing(buf[..], history);
      }
    }

    method CountScore() returns (score: real)
      requires Valid()
      ensures score == Score(history)
    {
      if total < MIN_ATTEMPTS {
        return 1.0;
      }
      var successes := 0;
      for i := 0 to total
        invariant successes == Successes(buf[..i])
      {
        assert buf[..i + 1][..i] == buf[..i];
        if buf[i] {
          successes := successes + 1;
        }
      }
      SlotsHoldRecent();
      score := successes as real / total as real;
    }
  }

  /** Outcomes less than a window apart sit in different slots. */
  lemma SlotsApart(head: nat)
    ensures forall j :: 0 <= j < head && head - WINDOW < j ==> j % WINDOW != head % WINDOW
  {
    forall j | 0 <= j < head && head - WINDOW < j
      ensures j % WINDOW != head % WINDOW
    {
      assert j == WINDOW * (j / WINDOW) + j % WINDOW && head == WINDOW * (head / WINDOW) + head % WINDOW;
    }
  }

  /** All providers; each has its own window, made at its first outcome. */
  class Tracker {
    var windows: map<string, ProviderWindow>
    ghost var histories: map<string, seq<bool>>
    ghost var Repr: set<object>

    ghost predicate Owns(id: string)
      requires id in windows
      reads this
    {
      windows[id] in Repr && windows[id].buf in Repr
    }

    ghost predicate Valid()
      reads this, Repr
    {
      && windows.Keys == histories.Keys && this !in Repr
      && (forall id :: id in windows ==> Owns(id) && windows[id].Valid() && windows[id].history == histories[id])
      && (forall a, b :: a in windows && b in windows && a != b
                         ==> windows[a] != windows[b] && windows[a].buf != windows[b].buf)
    }

    ghost function History(id: string): seq<bool>
      reads this
    {
      if id in histories then histories[id] else []
    }

    constructor ()
      ensures Valid() && histories == map[] && Repr == {}
    {
      windows, histories, Repr := map[], map[], {};
    }

    /** A provider without outcomes gets its window. */
    method AddWindow(id: string)
      requires Valid() && id !in windows
      modifies this
      ensures Valid() && fresh(Repr - old(Repr)) && old(Repr) <= Repr
      ensures id in windows && histories == old(histories)[id := []]
    {
      var w := new ProviderWindow();
      windows := windows[id := w];
      histories := histories[id := []];
      Repr := Repr + {w, w.buf};
      forall other | other in windows && other != id
        ensures Owns(other) && windows[other].Valid() && windows[other].history == histories[other]
        ensures windows[other] != w && windows[other].buf != w.buf
      {
        assert other in old(windows) && old(Owns(other));
      }
    }

    /** One outcome of a provider that has a window. */
    method AddOutcome(id: string, success: bool)
      requires Valid() && id in windows
      modifies this`histories, Repr
      ensures Valid() && Repr == old(Repr) && windows == old(windows)
      ensures histories == old(histories)[id := old(histories)[id] + [success]]
    {
      hide ProviderWindow.Valid;
      var w := windows[id];
      assert Owns(id);
      w.Add(success);
      histories := histories[id := histories[id] + [success]];
      forall other | other in windows
        ensures Owns(other) && windows[other].Valid() && windows[other].history == histories[other]
      {
        assert old(Owns(other)) && old(windows[other].Valid());
      }
    }

    /** One outcome of one provider; the others are not touched. */
    method Record(id: string, success: bool)
      requires Valid()
      modifies this, Repr
      ensures Valid() && fresh(Repr - old(Repr))
      ensures History(id) == old(History(id)) + [success]
      ensures forall other :: other != id ==> History(other) == old(History(other))
    {
      ghost var past := History(id);
      if id !in windows {
        AddWindow(id);
      }
      assert histories[id] == past;
      AddOutcome(id, success);
    }

    method ProviderHealth(id: string) returns (score: real)
      requires Valid()
      ensures score == Score(History(id))
    {
      if id !in windows {
        return 1.0;
      }
      score := windows[id].CountScore();
    }

    /** All tracked providers and their scores. */
    method Providers() returns (scores: map<string, real>)
      requires Valid()
      ensures scores.Keys == histories.Keys && forall id :: id in scores ==> scores[id] == Score(History(id))
    {
      scores := map[];
      var rest := windows.Keys;
      while rest != {}
        invariant rest <= windows.Keys && scores.Keys == windows.Keys - rest
        invariant forall id :: id in scores ==> scores[id] == Score(History(id))
        decreases rest
      {
        var id :| id in rest;
        var score := windows[id].CountScore();
        scores := scores[id := score];
        rest := rest - {id};
      }
    }
  }

  lemma Scaled(share: real, bound: real, n: real)
    requires n > 0.0
    ensures share < bound <==> share * n < bound * n
  {
    assert (bound - share) * n == bound * n - share * n;
    if share < bound {
      assert (bound - share) * n > 0.0;
    } else {
      assert (share - bound) * n >= 0.0;
    }
  }

  lemma ShareBelowTenth(s: nat, n: nat)
    requires n > 0
    ensures s as real / n as real < 0.1 <==> 10 * s < n
  {
    Scaled(s as real / n as real, 0.1, n as real);
    assert (10 * s) as real == 10.0 * s as real;
  }

  /**
   The score is too low for the engine iff there are at least five outcomes and less than a
   tenth of the recent ones succeeded.
   */
  predicate Failing(history: seq<bool>) {
    |history| >= MIN_ATTEMPTS && 10 * Successes(Recent(history)) < |Recent(history)|
  }

  lemma BelowThresholdIff(history: seq<bool>)
    ensures Score(history) < Engine.MIN_HEALTH <==> Failing(history)
  {
    if |history| >= MIN_ATTEMPTS {
      ShareBelowTenth(Successes(Recent(history)), |Recent(history)|);
    }
  }

  /**
   With the tracker's scores, the hard filter refuses a model for its provider's
   health iff its tier is high enough and the provider is failing; and it never
   admits a model of a failing provider, nor refuses one for health that is not.
   */
  lemma ExcludedIff(m: Registry.Model, job: Engine.Job, route: PolicyTypes.Route, health: Engine.HealthScores,
                    history: seq<bool>)
    requires health(m.providerId) == Score(history)
    ensures var minTier := Engine.MinimumTier(job, route);
            Engine.HardFilter(m, job, route, health, minTier) == Some(Engine.Unhealthy)
            <==> Engine.TierAtLeast(m.tier, minTier) && Failing(history)
    ensures Failing(history) ==> !Engine.Admitted(m, job, route, health)
    ensures !Failing(history) ==> (Engine.Admitted(m, job, route, health) <==> Engine.Admitted(m, job, route, _ => 1.0))
  {
    BelowThresholdIff(history);
    hide Score, Failing, Engine.MinimumTier, Engine.TierAtLeast, Engine.DenialReason, Engine.Permitted,
        Engine.MeetsForce;
    OtherReasons(m, route);
  }

  /** No other check of the filter reports health. */
  lemma OtherReasons(m: Registry.Model, route: PolicyTypes.Route)
    ensures Engine.PolicyReason(m, route.constraints) != Some(Engine.Unhealthy)
            && Engine.ForceReason(m, route.force) != Some(Engine.Unhealthy)
  {
    if route.constraints.Some? {
      DenialsOnly(m.capabilities, route.constraints.value.denyCapabilities);
    }
  }

  lemma {:induction false} DenialsOnly(c: Registry.Capabilities, denied: seq<string>)
    ensures Engine.DenialReason(c, denied).Some? ==> Engine.DenialReason(c, denied).value.CapabilityDenied?
  {
    if denied != [] {
      DenialsOnly(c, denied[1..]);
    }
  }

  lemma ShareInUnit(s: nat, n: nat)
    requires s <= n && n > 0
    ensures 0.0 <= s as real / n as real <= 1.0
  {
    Scaled(1.0, s as real / n as real, n as real);
    Scaled(s as real / n as real, 0.0, n as real);
  }

  /** Scores are between 0 and 1. */
  lemma ScoreInUnit(history: seq<bool>)
    ensures 0.0 <= Score(history) <= 1.0
  {
    if |history| >= MIN_ATTEMPTS {
      AtMostAll(Recent(history));
      ShareInUnit(Successes(Recent(history)), |Recent(history)|);
    }
  }

  lemma {:induction false} AtMostAll(s: seq<bool>)
    ensures Successes(s) <= |s|
  {
    if s != [] {
      AtMostAll(s[..|s| - 1]);
    }
  }

  // ---------------------------------------------------------------- spelt out

  /** One more outcome counts when it is a success. */
  lemma SuccessesSpelled(history: seq<bool>, b: bool)
    ensures Successes([]) == 0 && Successes(history + [b]) == Successes(history) + if b then 1 else 0
  {
    assert (history + [b])[..|history|] == history;
  }

  /**
   Before five outcomes the score is 1; then it is the share of successes among the last
   hundred, or all when there are fewer.
   */
  lemma ScoreSpelled(history: seq<bool>)
    ensures |history| < 5 ==> Score(history) == 1.0
    ensures 5 <= |history| <= 100 ==> Score(history) == Successes(history) as real / |history| as real
    ensures |history| > 100 ==> Score(history) == Successes(history[|history| - 100..]) as real / 100.0
  {
    hide Successes;
  }

  /** Failing is at least five outcomes, and less than a tenth of those that count. */
  lemma FailingSpelled(history: seq<bool>)
    ensures Failing(history) <==>
            || (5 <= |history| <= 100 && 10 * Successes(history) < |history|)
            || (|history| > 100 && Successes(history[|history| - 100..]) < 10)
  {
  }
}
