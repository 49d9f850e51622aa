/** The build configuration and the options that set it. Options are applied in order,
    so a later option overrides an earlier one. */
module Config {
  import opened Sinks

  type uint8 = x: int | 0 <= x < 256

  datatype Indentation = Indentation(enabled: bool, level: uint8)

  /** `writer == null` is the missing writer. The diagnostic logger is not part of the model. */
  datatype BuildConfig = BuildConfig(writer: Sink?, indent: Indentation)

  /** `WithLogger` stands for the logger option with its logger left out: it changes nothing modelled. */
  datatype BuildOpt = WithWriter(w: Sink?) | WithLogger | WithDefaultIndentation | WithIndentation(level: int)

  /** A fresh configuration: no writer, indentation off. */
  const DefaultConfig := BuildConfig(null, Indentation(false, 0))

  /** Go's `uint8(level)`: the low eight bits of the two's complement representation. */
  function ToUint8(level: int): (b: uint8)
    ensures 0 <= level < 256 ==> b == level
    ensures (b - level) % 256 == 0
  {
    level % 256
  }

  /** What one option's closure does to the configuration. */
  function Apply(cfg: BuildConfig, op: BuildOpt): BuildConfig {
    match op
    case WithWriter(w) => cfg.(writer := w)
    case WithLogger => cfg
    case WithDefaultIndentation => cfg.(indent := Indentation(true, 4))
    case WithIndentation(level) => cfg.(indent := Indentation(true, ToUint8(level)))
  }

  /** The configuration after applying `opts` in order to the default. */
  function Configured(opts: seq<BuildOpt>): BuildConfig {
    if |opts| == 0 then DefaultConfig else Apply(Configured(opts[..|opts| - 1]), opts[|opts| - 1])
  }

  predicate SetsIndentation(op: BuildOpt) {
    op.WithDefaultIndentation? || op.WithIndentation?
  }

  /** Without a writer option the writer is missing. */
  lemma {:induction false} NoWriterOption(opts: seq<BuildOpt>)
    requires forall j :: 0 <= j < |opts| ==> !opts[j].WithWriter?
    ensures Configured(opts).writer == null
  {
    if |opts| > 0 {
      NoWriterOption(opts[..|opts| - 1]);
    }
  }

  /** The writer is the one named by the last writer option. */
  lemma {:induction false} LastWriterWins(opts: seq<BuildOpt>, k: nat)
    requires k < |opts| && opts[k].WithWriter?
    requires forall j :: k < j < |opts| ==> !opts[j].WithWriter?
    ensures Configured(opts).writer == opts[k].w
  {
    if k < |opts| - 1 {
      LastWriterWins(opts[..|opts| - 1], k);
    }
  }

  /** Without an indentation option indentation stays off. */
  lemma {:induction false} NoIndentationOption(opts: seq<BuildOpt>)
    requires forall j :: 0 <= j < |opts| ==> !SetsIndentation(opts[j])
    ensures Configured(opts).indent == Indentation(false, 0)
  {
    if |opts| > 0 {
      NoIndentationOption(opts[..|opts| - 1]);
    }
  }

  /** The last indentation option decides: level 4 for the default one, the level
      truncated to eight bits for an explicit one; indentation is then on. */
  lemma {:induction false} LastIndentationWins(opts: seq<BuildOpt>, k: nat)
    requires k < |opts| && SetsIndentation(opts[k])
    requires forall j :: k < j < |opts| ==> !SetsIndentation(opts[j])
    ensures Configured(opts).indent.enabled
    ensures Configured(opts).indent.level == if opts[k].WithDefaultIndentation? then 4 else ToUint8(opts[k].level)
  {
    if k < |opts| - 1 {
      LastIndentationWins(opts[..|opts| - 1], k);
    }
  }

  /** The option loop of `buildDOM`. */
  method ApplyOptions(opts: seq<BuildOpt>) returns (cfg: BuildConfig)
    ensures cfg == Configured(opts)
  {
    cfg := DefaultConfig;
    for i := 0 to |opts|
      invariant cfg == Configured(opts[..i])
    {
      assert opts[..i + 1][..i] == opts[..i];
      cfg := Apply(cfg, opts[i]);
    }
    assert opts[..|opts|] == opts;
  }
}
