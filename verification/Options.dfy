/**
 Decode options: the settings object of one call, and the strict one all calls without options share.
 */
module Options {

  /** An option a caller can pass: nil, or what AllowTrailing returns. */
  datatype DecodeOption = NilOption | AllowTrailing

  class DecodeConfig {
    var allowTrailing: bool

    constructor ()
      ensures !allowTrailing
    {
      allowTrailing := false;
    }

    /** The body of the function AllowTrailing returns. */
    method Apply(option: DecodeOption)
      requires option.AllowTrailing?
      modifies this
      ensures allowTrailing
    {
      allowTrailing := true;
    }
  }

  /** A call is lenient exactly when its own options hold AllowTrailing, wherever and however often. */
  predicate Lenient(opts: seq<DecodeOption>) {
    AllowTrailing in opts
  }

  /**
   newDecodeConfig: the shared settings without options, else fresh ones the options write to.
   It writes to no settings object that existed before, the shared one included.
   */
  method NewDecodeConfig(shared: DecodeConfig, opts: seq<DecodeOption>) returns (cfg: DecodeConfig)
    requires !shared.allowTrailing
    ensures opts == [] ==> cfg == shared
    ensures opts != [] ==> fresh(cfg)
    ensures cfg.allowTrailing <==> Lenient(opts)
  {
    if |opts| == 0 {
      return shared;
    }
    cfg := new DecodeConfig();
    for i := 0 to |opts|
      invariant fresh(cfg) && cfg != shared
      invariant cfg.allowTrailing <==> Lenient(opts[..i])
    {
      assert opts[..i + 1] == opts[..i] + [opts[i]];
      if opts[i] != NilOption {
        cfg.Apply(opts[i]);
      }
    }
    assert opts[..|opts|] == opts;
  }

  /** Over any run of calls, each gets the mode its own options select: no call leaves a trace in the shared settings. */
  method ModesOfRun(shared: DecodeConfig, calls: seq<seq<DecodeOption>>) returns (modes: seq<bool>)
    requires !shared.allowTrailing
    ensures !shared.allowTrailing
    ensures modes == seq(|calls|, i requires 0 <= i < |calls| => Lenient(calls[i]))
  {
    modes := [];
    for i := 0 to |calls|
      invariant !shared.allowTrailing && |modes| == i
      invariant forall j :: 0 <= j < i ==> modes[j] == Lenient(calls[j])
    {
      var cfg := NewDecodeConfig(shared, calls[i]);
      modes := modes + [cfg.allowTrailing];
    }
  }
}
