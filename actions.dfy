/** The hardware actions the driver performs, as entries of a trace, and the
    two trace views the ordering properties are stated in: the index of the
    first occurrence of an action, and the sub-trace of the actions of one
    kind. */
module Actions {
  import opened ClockTypes

  /** One vendor LL call (or one observed "ready" of a busy-poll). */
  datatype Action =
    | HseBypass(on: bool)                                  // LL_RCC_HSE_Enable/DisableBypass
    | OscEnable(osc: Osc)                                  // LL_RCC_xxx_Enable
    | OscReady(osc: Osc)                                   // while (!LL_RCC_xxx_IsReady()) {}
    | HsiSetDivider(divisor: nat)                          // LL_RCC_HSI_SetDivider
    | BackupAccessEnable                                   // LL_PWR_EnableBkUpAccess
    | PllSetSource(pllSrc: PllSource)                      // LL_RCC_PLL_SetSource
    | PllSetM(unit: PllUnit, m: nat)
    | PllSetVcoInput(unit: PllUnit, inRange: VcoInputRange)
    | PllSetVcoOutput(unit: PllUnit, outRange: VcoOutputRange)
    | PllSetN(unit: PllUnit, n: nat)
    | PllFracnDisable(unit: PllUnit)
    | PllSetDivider(unit: PllUnit, out: PllOutput, divisor: nat)
    | PllOutputEnable(unit: PllUnit, out: PllOutput)
    | PllEnable(unit: PllUnit)
    | PllReady(unit: PllUnit)                              // while (!LL_RCC_PLLx_IsReady()) {}
    | HsemClockEnable(bus: HsemClockBus)                   // LL_AHBx_GRP1_EnableClock(HSEM)
    | HsemLock                                             // z_stm32_hsem_lock
    | HsemUnlock                                           // z_stm32_hsem_unlock
    | ConfigSupply                                         // LL_PWR_ConfigSupply
    | SetVoltageScale(scale: VoltageScale)                 // LL_PWR_SetRegulVoltageScaling
    | SetFlashLatency(hclk: nat)                           // LL_SetFlashLatency
    | SetPrescaler(stage: Stage, ratio: nat)               // LL_RCC_SetxxxPrescaler
    | SetSysClkSource(sysSrc: SysClkSource)                // LL_RCC_SetSysClkSource
    | SysClkSwitched(sysSrc: SysClkSource)                 // while (GetSysClkSource() != ...) {}
    | GateRead(addr: nat, value: Word)                     // reg_val = *reg
    | GateWrite(addr: nat, value: Word)                    // *reg = reg_val

  /** The status a driver routine returns and the actions it performed. */
  datatype Outcome = Outcome(status: int, steps: seq<Action>)

  predicate IsLockEvent(a: Action) { a.HsemLock? || a.HsemUnlock? }
  predicate IsLatencyWrite(a: Action) { a.SetFlashLatency? }
  predicate IsVoltageWrite(a: Action) { a.SetVoltageScale? }

  /** Index of the first occurrence of a in t. */
  function IndexOf(t: seq<Action>, a: Action): (i: nat)
    requires a in t
    ensures i < |t| && t[i] == a && a !in t[..i]
  {
    if t[0] == a then 0
    else
      assert a in t[1..] by {
        var k :| 0 <= k < |t| && t[k] == a;
        assert t[1..][k - 1] == a;
      }
      var j := IndexOf(t[1..], a);
      assert t[..j + 1] == [t[0]] + t[1..][..j];
      j + 1
  }

  /** The first occurrence is the only index with nothing equal before it. */
  lemma IndexOfUnique(t: seq<Action>, a: Action, i: nat)
    requires i < |t| && t[i] == a && a !in t[..i]
    ensures IndexOf(t, a) == i
  {
    var j := IndexOf(t, a);
    assert forall k :: 0 <= k < i ==> t[..i][k] == t[k];
    assert forall k :: 0 <= k < j ==> t[..j][k] == t[k];
  }

  lemma IndexOfAppend(x: seq<Action>, y: seq<Action>, a: Action)
    requires a in x + y
    ensures a in x ==> IndexOf(x + y, a) == IndexOf(x, a)
    ensures a !in x ==> a in y && IndexOf(x + y, a) == |x| + IndexOf(y, a)
  {
    if a in x {
      IndexOfAppendLeft(x, y, a);
    } else {
      IndexOfAppendRight(x, y, a);
    }
  }

  lemma IndexOfAppendLeft(x: seq<Action>, y: seq<Action>, a: Action)
    requires a in x
    ensures IndexOf(x + y, a) == IndexOf(x, a)
  {
    var i := IndexOf(x, a);
    assert (x + y)[..i] == x[..i];
    IndexOfUnique(x + y, a, i);
  }

  lemma IndexOfAppendRight(x: seq<Action>, y: seq<Action>, a: Action)
    requires a in x + y && a !in x
    ensures a in y && IndexOf(x + y, a) == |x| + IndexOf(y, a)
  {
    var k :| 0 <= k < |x + y| && (x + y)[k] == a;
    assert forall i :: 0 <= i < |x| ==> (x + y)[i] == x[i];
    assert y[k - |x|] == a;
    var j := IndexOf(y, a);
    assert (x + y)[..|x| + j] == x + y[..j];
    IndexOfUnique(x + y, a, |x| + j);
  }

  /** An action of x comes before every action of y that is not also in x. */
  lemma IndexOfAcross(x: seq<Action>, y: seq<Action>, a: Action, b: Action)
    requires a in x && b !in x && b in y
    ensures a in x + y && b in x + y
    ensures IndexOf(x + y, a) < IndexOf(x + y, b)
  {
    IndexOfAppend(x, y, a);
    IndexOfAppend(x, y, b);
  }

  /** For an action in the middle block b of p + b + s and not in p, its
      index is |p| plus its index within b. */
  lemma IndexOfInBlock(p: seq<Action>, b: seq<Action>, s: seq<Action>, a: Action)
    requires a in b && a !in p
    ensures a in p + b + s
    ensures IndexOf(p + b + s, a) == |p| + IndexOf(b, a)
  {
    assert p + b + s == p + (b + s);
    IndexOfAppend(p, b + s, a);
    IndexOfAppend(b, s, a);
  }

  /** The sub-trace of the actions keep selects, in order. */
  function Select(t: seq<Action>, keep: Action -> bool): (s: seq<Action>)
    ensures |s| <= |t|
    ensures forall a :: a in s ==> a in t && keep(a)
  {
    if t == [] then []
    else (if keep(t[0]) then [t[0]] else []) + Select(t[1..], keep)
  }

  lemma {:induction false} SelectAppend(x: seq<Action>, y: seq<Action>, keep: Action -> bool)
    ensures Select(x + y, keep) == Select(x, keep) + Select(y, keep)
  {
    if x == [] {
      assert x + y == y;
    } else {
      assert (x + y)[0] == x[0];
      assert (x + y)[1..] == x[1..] + y;
      SelectAppend(x[1..], y, keep);
      var h := if keep(x[0]) then [x[0]] else [];
      assert h + (Select(x[1..], keep) + Select(y, keep))
          == (h + Select(x[1..], keep)) + Select(y, keep);
    }
  }

  lemma {:induction false} SelectNone(t: seq<Action>, keep: Action -> bool)
    requires forall a :: a in t ==> !keep(a)
    ensures Select(t, keep) == []
  {
    if t != [] {
      assert t[0] in t;
      forall a | a in t[1..] ensures !keep(a) {
        var k :| 0 <= k < |t[1..]| && t[1..][k] == a;
        assert t[k + 1] == a;
      }
      SelectNone(t[1..], keep);
    }
  }

  /** Selecting from a one-element trace. */
  lemma SelectSingle(a: Action, keep: Action -> bool)
    ensures Select([a], keep) == if keep(a) then [a] else []
  {
    assert [a][1..] == [];
  }

  /** Selecting from a trace in three pieces. */
  lemma SelectAppend3(x: seq<Action>, y: seq<Action>, z: seq<Action>, keep: Action -> bool)
    ensures Select(x + y + z, keep) == Select(x, keep) + Select(y, keep) + Select(z, keep)
  {
    SelectAppend(x + y, z, keep);
    SelectAppend(x, y, keep);
  }

  /** A slice within the first part of a trace only sees that part. */
  lemma SlicePrefix(x: seq<Action>, y: seq<Action>, i: nat, j: nat)
    requires i <= j <= |x|
    ensures (x + y)[i..j] == x[i..j]
  {
  }

  /** A prefix within the first part of a trace only sees that part. */
  lemma TakeOfAppend(x: seq<Action>, y: seq<Action>, n: nat)
    requires n <= |x|
    ensures (x + y)[..n] == x[..n]
  {
  }

  /** Regrouping a trace extended piece by piece. */
  lemma AppendAssoc(t: seq<Action>, x: seq<Action>, y: seq<Action>)
    ensures t + x + y == t + (x + y)
  {
  }

  lemma AppendAssoc3(t: seq<Action>, x: seq<Action>, y: seq<Action>, z: seq<Action>)
    ensures t + x + y + z == t + (x + y + z)
  {
  }

  lemma AppendAssoc4(t: seq<Action>, w: seq<Action>, x: seq<Action>, y: seq<Action>, z: seq<Action>)
    ensures t + w + x + y + z == t + (w + x + y + z)
  {
  }

  lemma AppendAssoc5(t: seq<Action>, b0: seq<Action>, b1: seq<Action>, b2: seq<Action>, b3: seq<Action>, b4: seq<Action>)
    ensures t + b0 + b1 + b2 + b3 + b4 == t + (b0 + b1 + b2 + b3 + b4)
  {
  }
}
