// The synchroniser chain, core/hdl/Usb2CCSync.vhd.
module CCSync {
  import opened Logic

  // `ccSync`, indexed as in the source: the input enters at 0.
  type Chain = c: seq<Bit> | |c| > 0 witness [L]

  function Fresh(stages: nat, init: Bit): Chain
    requires stages > 0
  {
    seq(stages, _ => init)
  }

  function Shift(c: Chain, d: Bit): Chain {
    [d] + c[..|c| - 1]
  }

  function Q(c: Chain): Bit {
    c[|c| - 1]
  }

  class Usb2CCSync {
    const init: Bit
    var ccSync: Chain

    constructor (stages: nat, init: Bit)
      requires stages > 0
      ensures this.init == init && ccSync == Fresh(stages, init)
    {
      this.init := init;
      ccSync := Fresh(stages, init);
    }

    // One clock edge.
    method Step(rst: Bit, d: Bit)
      modifies this
      ensures ccSync == if rst == H then Fresh(|old(ccSync)|, init) else Shift(old(ccSync), d)
    {
      if rst == H {
        ccSync := Fresh(|ccSync|, init);
      } else {
        ccSync := [d] + ccSync[..|ccSync| - 1];
      }
    }
  }

  function Shifts(c: Chain, ds: seq<Bit>): Chain
    decreases ds
  {
    if ds == [] then c else Shifts(Shift(c, ds[0]), ds[1..])
  }

  // The chain is a delay line: after any inputs it holds the latest of them, the
  // newest first, and `q` lags by the number of stages.
  lemma {:induction false} DelayLine(c: Chain, ds: seq<Bit>, k: nat)
    requires k < |c|
    ensures |Shifts(c, ds)| == |c|
    ensures Shifts(c, ds)[k] == if k < |ds| then ds[|ds| - 1 - k] else c[k - |ds|]
    decreases ds
  {
    if ds != [] {
      DelayLine(Shift(c, ds[0]), ds[1..], k);
    }
  }
}
