/** set_up_fixed_clock_sources: each enabled fixed oscillator is switched on
    and waited for, in the order HSE, HSI, CSI, LSI, LSE. */
module FixedSources {
  import opened ClockTypes
  import opened Actions
  import opened Hardware

  /** The oscillator in position k of the start-up order. */
  function OscAt(k: nat): Osc
    requires k < 5
  {
    if k == 0 then HSE else if k == 1 then HSI else if k == 2 then CSI else if k == 3 then LSI else LSE
  }

  /** The position of an oscillator in the start-up order. */
  function Rank(o: Osc): (k: nat)
    ensures k < 5 && OscAt(k) == o
    ensures forall j :: 0 <= j < 5 && OscAt(j) == o ==> j == k
  {
    match o
    case HSE => 0
    case HSI => 1
    case CSI => 2
    case LSI => 3
    case LSE => 4
  }

  predicate OscEnabled(c: Config, o: Osc)
  {
    match o
    case HSE => c.hseEnabled
    case HSI => c.hsiEnabled
    case CSI => c.csiEnabled
    case LSI => c.lsiEnabled
    case LSE => c.lseEnabled
  }

  /** The oscillator an action of this routine belongs to. */
  function Owner(a: Action): Option<Osc>
  {
    match a
    case HseBypass(_) => Some(HSE)
    case OscEnable(o) => Some(o)
    case OscReady(o) => Some(o)
    case HsiSetDivider(_) => Some(HSI)
    case BackupAccessEnable => Some(LSE)
    case _ => None
  }

  /** What comes before enabling an oscillator: the HSE bypass choice, or
      backup-domain access for the LSE. */
  function Before(c: Config, o: Osc): seq<Action>
  {
    match o
    case HSE => [HseBypass(c.hseBypass)]
    case LSE => [BackupAccessEnable]
    case _ => []
  }

  /** What comes after the oscillator is ready: the HSI divider. */
  function After(c: Config, o: Osc): seq<Action>
  {
    if o == HSI then [HsiSetDivider(c.hsiDivisor)] else []
  }

  /** The actions for one enabled oscillator; it is waited for right after
      it is enabled. */
  function OscSteps(c: Config, o: Osc): (r: seq<Action>)
    ensures OscEnable(o) in r && OscReady(o) in r
    ensures IndexOf(r, OscEnable(o)) == |Before(c, o)|
    ensures IndexOf(r, OscReady(o)) == |Before(c, o)| + 1
  {
    var pre := Before(c, o);
    var r := pre + [OscEnable(o), OscReady(o)] + After(c, o);
    var e := |pre|;
    assert r[e] == OscEnable(o) && r[e + 1] == OscReady(o);
    assert r[..e] == pre && r[..e + 1] == pre + [OscEnable(o)];
    IndexOfUnique(r, OscEnable(o), e);
    IndexOfUnique(r, OscReady(o), e + 1);
    r
  }

  /** Every action of an oscillator's steps belongs to that oscillator. */
  lemma OscStepsOwned(c: Config, o: Osc, a: Action)
    requires a in OscSteps(c, o)
    ensures Owner(a) == Some(o)
  {
    var pre, post := Before(c, o), After(c, o);
    assert OscSteps(c, o) == pre + [OscEnable(o), OscReady(o)] + post;
    assert a in pre || a in [OscEnable(o), OscReady(o)] || a in post;
  }

  function Block(c: Config, o: Osc): seq<Action>
  {
    if OscEnabled(c, o) then OscSteps(c, o) else []
  }

  /** The actions for the first k oscillators of the start-up order. */
  function StepsUpTo(c: Config, k: nat): seq<Action>
    requires k <= 5
  {
    if k == 0 then [] else StepsUpTo(c, k - 1) + Block(c, OscAt(k - 1))
  }

  /** Everything set_up_fixed_clock_sources does, in order. */
  function FixedSourceSteps(c: Config): seq<Action>
  {
    StepsUpTo(c, 5)
  }

  /** The actions of fewer oscillators are a prefix of those of more. */
  lemma {:induction false} StepsUpToPrefix(c: Config, i: nat, k: nat)
    requires i <= k <= 5
    ensures |StepsUpTo(c, i)| <= |StepsUpTo(c, k)|
    ensures StepsUpTo(c, k)[..|StepsUpTo(c, i)|] == StepsUpTo(c, i)
    decreases k
  {
    if i < k {
      StepsUpToPrefix(c, i, k - 1);
      TakeOfAppend(StepsUpTo(c, k - 1), Block(c, OscAt(k - 1)), |StepsUpTo(c, i)|);
    }
  }

  /** An action among the first k blocks belongs to one of the first k
      oscillators, which is enabled, and comes from that oscillator's block. */
  lemma {:induction false} InOwnersBlock(c: Config, k: nat, a: Action)
    requires k <= 5 && a in StepsUpTo(c, k)
    ensures Owner(a).Some? && Rank(Owner(a).value) < k
    ensures OscEnabled(c, Owner(a).value) && a in OscSteps(c, Owner(a).value)
    decreases k
  {
    var p := StepsUpTo(c, k - 1);
    var b := Block(c, OscAt(k - 1));
    assert StepsUpTo(c, k) == p + b;
    if a in p {
      InOwnersBlock(c, k - 1, a);
    } else {
      assert a in b && b != [];
      OscStepsOwned(c, OscAt(k - 1), a);
    }
  }

  /** The whole trace is the first i blocks, block i, and the rest. */
  lemma SplitAt(c: Config, i: nat)
    requires i < 5
    ensures |StepsUpTo(c, i + 1)| <= |FixedSourceSteps(c)|
    ensures FixedSourceSteps(c)
         == StepsUpTo(c, i) + Block(c, OscAt(i)) + FixedSourceSteps(c)[|StepsUpTo(c, i + 1)|..]
  {
    var t := FixedSourceSteps(c);
    StepsUpToPrefix(c, i + 1, 5);
    var n := |StepsUpTo(c, i + 1)|;
    assert t == t[..n] + t[n..];
  }

  /** An action of block i is not among the first i blocks. */
  lemma NotInEarlierBlocks(c: Config, i: nat, a: Action)
    requires i < 5 && a in Block(c, OscAt(i))
    ensures a !in StepsUpTo(c, i)
  {
    OscStepsOwned(c, OscAt(i), a);
    if a in StepsUpTo(c, i) {
      InOwnersBlock(c, i, a);
    }
  }

  /** An action of the block of the i-th oscillator sits at the length of
      the first i blocks plus its place within its block. */
  lemma IndexInSteps(c: Config, i: nat, a: Action)
    requires i < 5 && a in Block(c, OscAt(i))
    ensures a in FixedSourceSteps(c)
    ensures IndexOf(FixedSourceSteps(c), a) == |StepsUpTo(c, i)| + IndexOf(Block(c, OscAt(i)), a)
    ensures IndexOf(FixedSourceSteps(c), a) < |StepsUpTo(c, i + 1)|
  {
    SplitAt(c, i);
    NotInEarlierBlocks(c, i, a);
    IndexOfInBlock(StepsUpTo(c, i), Block(c, OscAt(i)), FixedSourceSteps(c)[|StepsUpTo(c, i + 1)|..], a);
  }

  /** The actions of an earlier oscillator all come before those of a later one. */
  lemma OrderedByRank(c: Config, a: Action, b: Action)
    requires a in FixedSourceSteps(c) && b in FixedSourceSteps(c)
    requires Owner(a).Some? && Owner(b).Some? && Rank(Owner(a).value) < Rank(Owner(b).value)
    ensures IndexOf(FixedSourceSteps(c), a) < IndexOf(FixedSourceSteps(c), b)
  {
    var i, j := Rank(Owner(a).value), Rank(Owner(b).value);
    InOwnersBlock(c, 5, a);
    InOwnersBlock(c, 5, b);
    IndexInSteps(c, i, a);
    IndexInSteps(c, j, b);
    StepsUpToPrefix(c, i + 1, j);
  }

  /** Nothing but oscillator start-up happens here. */
  lemma OnlyOscillatorActions(c: Config, a: Action)
    requires a in FixedSourceSteps(c)
    ensures Owner(a).Some? && OscEnabled(c, Owner(a).value)
  {
    InOwnersBlock(c, 5, a);
  }

  /** An oscillator's enable or ready action is in the trace exactly when
      the oscillator is configured. */
  lemma StartActionIffEnabled(c: Config, o: Osc, a: Action)
    requires a == OscEnable(o) || a == OscReady(o)
    ensures a in FixedSourceSteps(c) <==> OscEnabled(c, o)
  {
    if OscEnabled(c, o) {
      IndexInSteps(c, Rank(o), a);
    } else if a in FixedSourceSteps(c) {
      OnlyOscillatorActions(c, a);
    }
  }

  /** An oscillator is enabled, and waited for, exactly when it is configured. */
  lemma EnabledExactlyWhenConfigured(c: Config, o: Osc)
    ensures OscEnable(o) in FixedSourceSteps(c) <==> OscEnabled(c, o)
    ensures OscReady(o) in FixedSourceSteps(c) <==> OscEnabled(c, o)
  {
    StartActionIffEnabled(c, o, OscEnable(o));
    StartActionIffEnabled(c, o, OscReady(o));
  }

  /** The wait for readiness comes right after an oscillator is enabled and
      before anything else happens. */
  lemma ReadyRightAfterEnable(c: Config, o: Osc)
    requires OscEnabled(c, o)
    ensures OscEnable(o) in FixedSourceSteps(c) && OscReady(o) in FixedSourceSteps(c)
    ensures IndexOf(FixedSourceSteps(c), OscReady(o)) == IndexOf(FixedSourceSteps(c), OscEnable(o)) + 1
  {
    IndexInSteps(c, Rank(o), OscEnable(o));
    IndexInSteps(c, Rank(o), OscReady(o));
  }

  /** An earlier oscillator of the order HSE, HSI, CSI, LSI, LSE is ready
      before a later one is even enabled. */
  lemma StartedInOrder(c: Config, o1: Osc, o2: Osc)
    requires OscEnabled(c, o1) && OscEnabled(c, o2) && Rank(o1) < Rank(o2)
    ensures OscReady(o1) in FixedSourceSteps(c) && OscEnable(o2) in FixedSourceSteps(c)
    ensures IndexOf(FixedSourceSteps(c), OscReady(o1)) < IndexOf(FixedSourceSteps(c), OscEnable(o2))
  {
    EnabledExactlyWhenConfigured(c, o1);
    EnabledExactlyWhenConfigured(c, o2);
    OrderedByRank(c, OscReady(o1), OscEnable(o2));
  }

  /** Every action of an oscillator's steps comes before the enable, is the
      enable or the ready wait, or comes after the wait. */
  lemma OscStepsParts(c: Config, o: Osc, a: Action)
    requires a in OscSteps(c, o)
    ensures a in Before(c, o) || a == OscEnable(o) || a == OscReady(o) || a in After(c, o)
  {
    var pre, post := Before(c, o), After(c, o);
    assert OscSteps(c, o) == pre + [OscEnable(o), OscReady(o)] + post;
    assert a in pre || a in [OscEnable(o), OscReady(o)] || a in post;
  }

  /** The bypass write opens the HSE steps. */
  lemma BypassIndex(c: Config)
    ensures HseBypass(c.hseBypass) in OscSteps(c, HSE)
    ensures IndexOf(OscSteps(c, HSE), HseBypass(c.hseBypass)) == 0
  {
    assert OscSteps(c, HSE)[0] == HseBypass(c.hseBypass);
  }

  /** The divider write closes the HSI steps. */
  lemma HsiDividerIndex(c: Config)
    ensures HsiSetDivider(c.hsiDivisor) in OscSteps(c, HSI)
    ensures IndexOf(OscSteps(c, HSI), HsiSetDivider(c.hsiDivisor)) == 2
  {
    var x, d := Before(c, HSI) + [OscEnable(HSI), OscReady(HSI)], HsiSetDivider(c.hsiDivisor);
    assert x == [OscEnable(HSI), OscReady(HSI)];
    assert OscSteps(c, HSI) == x + [d];
    IndexOfAppend(x, [d], d);
  }

  /** Backup-domain access opens the LSE steps. */
  lemma BackupAccessIndex(c: Config)
    ensures BackupAccessEnable in OscSteps(c, LSE)
    ensures IndexOf(OscSteps(c, LSE), BackupAccessEnable) == 0
  {
    assert OscSteps(c, LSE)[0] == BackupAccessEnable;
  }

  /** The HSE bypass is written just before HSE is enabled. */
  lemma BypassBeforeHse(c: Config)
    requires c.hseEnabled
    ensures HseBypass(c.hseBypass) in FixedSourceSteps(c) && OscEnable(HSE) in FixedSourceSteps(c)
    ensures IndexOf(FixedSourceSteps(c), HseBypass(c.hseBypass)) + 1 == IndexOf(FixedSourceSteps(c), OscEnable(HSE))
  {
    BypassIndex(c);
    IndexInSteps(c, 0, HseBypass(c.hseBypass));
    IndexInSteps(c, 0, OscEnable(HSE));
  }

  /** A bypass write in the trace comes from an enabled HSE's steps. */
  lemma BypassFromHseSteps(c: Config, on: bool)
    requires HseBypass(on) in FixedSourceSteps(c)
    ensures c.hseEnabled && on == c.hseBypass
  {
    assert Owner(HseBypass(on)) == Some(HSE);
    InOwnersBlock(c, 5, HseBypass(on));
    OscStepsParts(c, HSE, HseBypass(on));
    assert Before(c, HSE) == [HseBypass(c.hseBypass)] && After(c, HSE) == [];
  }

  /** The HSE bypass is written, with the configured value, only for an
      enabled HSE. */
  lemma BypassOnlyForHse(c: Config, on: bool)
    ensures HseBypass(on) in FixedSourceSteps(c) <==> c.hseEnabled && on == c.hseBypass
  {
    if HseBypass(on) in FixedSourceSteps(c) {
      BypassFromHseSteps(c, on);
    }
    if c.hseEnabled && on == c.hseBypass {
      BypassBeforeHse(c);
    }
  }

  /** The HSI divider is written right after HSI is ready. */
  lemma HsiDividerAfterReady(c: Config)
    requires c.hsiEnabled
    ensures OscReady(HSI) in FixedSourceSteps(c) && HsiSetDivider(c.hsiDivisor) in FixedSourceSteps(c)
    ensures IndexOf(FixedSourceSteps(c), OscReady(HSI)) + 1 == IndexOf(FixedSourceSteps(c), HsiSetDivider(c.hsiDivisor))
  {
    HsiDividerIndex(c);
    IndexInSteps(c, 1, OscReady(HSI));
    IndexInSteps(c, 1, HsiSetDivider(c.hsiDivisor));
  }

  /** A divider write in the trace comes from an enabled HSI's steps. */
  lemma HsiDividerFromHsiSteps(c: Config, d: nat)
    requires HsiSetDivider(d) in FixedSourceSteps(c)
    ensures c.hsiEnabled && d == c.hsiDivisor
  {
    assert Owner(HsiSetDivider(d)) == Some(HSI);
    InOwnersBlock(c, 5, HsiSetDivider(d));
    OscStepsParts(c, HSI, HsiSetDivider(d));
    assert Before(c, HSI) == [] && After(c, HSI) == [HsiSetDivider(c.hsiDivisor)];
  }

  /** The HSI divider is written, with the configured divisor, only for an
      enabled HSI. */
  lemma HsiDividerOnlyForHsi(c: Config, d: nat)
    ensures HsiSetDivider(d) in FixedSourceSteps(c) <==> c.hsiEnabled && d == c.hsiDivisor
  {
    if HsiSetDivider(d) in FixedSourceSteps(c) {
      HsiDividerFromHsiSteps(c, d);
    }
    if c.hsiEnabled && d == c.hsiDivisor {
      HsiDividerAfterReady(c);
    }
  }

  /** Backup-domain access is enabled just before LSE is enabled. */
  lemma BackupAccessBeforeLse(c: Config)
    requires c.lseEnabled
    ensures BackupAccessEnable in FixedSourceSteps(c) && OscEnable(LSE) in FixedSourceSteps(c)
    ensures IndexOf(FixedSourceSteps(c), BackupAccessEnable) + 1 == IndexOf(FixedSourceSteps(c), OscEnable(LSE))
  {
    BackupAccessIndex(c);
    IndexInSteps(c, 4, BackupAccessEnable);
    IndexInSteps(c, 4, OscEnable(LSE));
  }

  /** Backup-domain access is enabled only for an enabled LSE. */
  lemma BackupAccessOnlyForLse(c: Config)
    ensures BackupAccessEnable in FixedSourceSteps(c) <==> c.lseEnabled
  {
    if BackupAccessEnable in FixedSourceSteps(c) {
      OnlyOscillatorActions(c, BackupAccessEnable);
    }
    if c.lseEnabled {
      BackupAccessBeforeLse(c);
    }
  }

  /** One if-block of set_up_fixed_clock_sources; the busy-poll returns
      once the hardware reports the oscillator ready. */
  method StartOscillator(rcc: Rcc, c: Config, o: Osc)
    modifies rcc`trace
    ensures rcc.trace == old(rcc.trace) + OscSteps(c, o)
  {
    ghost var t0 := rcc.trace;
    if o == HSE {
      rcc.Emit(HseBypass(c.hseBypass));
    } else if o == LSE {
      rcc.Emit(BackupAccessEnable);
    }
    assert rcc.trace == t0 + Before(c, o);
    rcc.Emit(OscEnable(o));
    rcc.Emit(OscReady(o));
    assert rcc.trace == t0 + (Before(c, o) + [OscEnable(o), OscReady(o)]);
    if o == HSI {
      rcc.Emit(HsiSetDivider(c.hsiDivisor));
    }
    assert rcc.trace == t0 + (Before(c, o) + [OscEnable(o), OscReady(o)] + After(c, o));
  }

  /** One if-block of set_up_fixed_clock_sources: the oscillator is
      started when it is enabled. */
  method StartIfEnabled(rcc: Rcc, c: Config, o: Osc)
    modifies rcc`trace
    ensures rcc.trace == old(rcc.trace) + Block(c, o)
  {
    if OscEnabled(c, o) {
      StartOscillator(rcc, c, o);
    } else {
      assert rcc.trace == rcc.trace + [];
    }
  }

  lemma FiveBlocks(c: Config)
    ensures FixedSourceSteps(c)
         == Block(c, HSE) + Block(c, HSI) + Block(c, CSI) + Block(c, LSI) + Block(c, LSE)
  {
    assert StepsUpTo(c, 1) == Block(c, HSE);
    assert StepsUpTo(c, 2) == StepsUpTo(c, 1) + Block(c, HSI);
    assert StepsUpTo(c, 3) == StepsUpTo(c, 2) + Block(c, CSI);
    assert StepsUpTo(c, 4) == StepsUpTo(c, 3) + Block(c, LSI);
    assert StepsUpTo(c, 5) == StepsUpTo(c, 4) + Block(c, LSE);
  }

  /** set_up_fixed_clock_sources on the RCC. */
  method SetUpFixedClockSources(rcc: Rcc, c: Config)
    modifies rcc`trace
    ensures rcc.trace == old(rcc.trace) + FixedSourceSteps(c)
  {
    ghost var t0 := rcc.trace;
    StartIfEnabled(rcc, c, HSE);
    StartIfEnabled(rcc, c, HSI);
    StartIfEnabled(rcc, c, CSI);
    StartIfEnabled(rcc, c, LSI);
    StartIfEnabled(rcc, c, LSE);
    FiveBlocks(c);
    AppendAssoc5(t0, Block(c, HSE), Block(c, HSI), Block(c, CSI), Block(c, LSI), Block(c, LSE));
  }
}
