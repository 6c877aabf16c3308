/**
 * Which fields the result message of a finished generation carries, and how
 * the prompts are shortened to fit (the `add_field` calls of `_worker_loop`).
 */
module Summary {

  /** The `parameters` record echoed by the backend, as far as the summary reads it. */
  datatype Params = Params(
    prompt: string,
    negativePrompt: string,
    steps: int,
    height: int,
    width: int,
    samplerIndex: string,
    cfgScale: real,
    enableHr: bool)

  /** The configured defaults the summary compares against (`command_params`). */
  datatype Defaults = Defaults(height: int, width: int, cfg: real, wrapSpoiler: bool)

  /** `wrap_spoiler` when the configuration does not set it. */
  const DefaultWrapSpoiler := true

  /** Longest prompt shown unshortened, and the marker appended when shortening. */
  const PromptLimit := 1020
  const Ellipsis := "..."

  /** The fields a result message can carry; `Label` is the name shown. */
  datatype Name = Prompt | NegativePrompt | Steps | Height | Width | Sampler | Seed | CfgScale | HighresFix
  {
    function Label(): string
    {
      match this
      case Prompt => "Prompt"
      case NegativePrompt => "Negative Prompt"
      case Steps => "Steps"
      case Height => "Height"
      case Width => "Width"
      case Sampler => "Sampler"
      case Seed => "Seed"
      case CfgScale => "CFG Scale"
      case HighresFix => "Highres Fix"
    }

  }

  datatype Value = Text(s: string) | Int(n: int) | Real(r: real)

  datatype Field = Field(name: Name, value: Value)

  /** A prompt as shown: at most 1020 characters are kept, and "..." marks a cut. */
  function Truncate(s: string): (r: string)
    ensures |s| <= PromptLimit ==> r == s
    ensures |s| > PromptLimit ==>
      |r| == PromptLimit + |Ellipsis| && r[..PromptLimit] == s[..PromptLimit] && r[PromptLimit..] == Ellipsis
    ensures |r| <= PromptLimit + |Ellipsis|
  {
    if |s| > PromptLimit then s[..PromptLimit] + Ellipsis else s
  }

  /** Shortening a shown prompt again changes nothing. */
  lemma TruncateIdempotent(s: string)
    ensures Truncate(Truncate(s)) == Truncate(s)
  {
  }

  /** The names of `fs`, in order. */
  function Names(fs: seq<Field>): (ns: seq<Name>)
  {
    seq(|fs|, i requires 0 <= i < |fs| => fs[i].name)
  }

  /** Whether the size differs from the default: one test decides both Height and Width. */
  predicate ShowsSize(p: Params, d: Defaults)
  {
    p.height != d.height || p.width != d.width
  }

  /** The three fields that open every result message. */
  function HeadFields(p: Params): seq<Field>
  {
    [Field(Prompt, Text(Truncate(p.prompt))),
     Field(NegativePrompt, Text(Truncate(p.negativePrompt))),
     Field(Steps, Int(p.steps))]
  }

  /** Sampler and Seed, which follow the size fields. */
  function MiddleFields(p: Params, seed: string): seq<Field>
  {
    [Field(Sampler, Text(p.samplerIndex)), Field(Seed, Text(seed))]
  }

  /** Height and Width, added together when the size differs from the default. */
  function SizeFields(p: Params, d: Defaults): seq<Field>
  {
    if ShowsSize(p, d) then [Field(Height, Int(p.height)), Field(Width, Int(p.width))] else []
  }

  /** CFG Scale, added when it differs from the default. */
  function CfgFields(p: Params, d: Defaults): seq<Field>
  {
    if p.cfgScale != d.cfg then [Field(CfgScale, Real(p.cfgScale))] else []
  }

  /** Highres Fix, added when the backend ran the high-resolution pass. */
  function HighresFields(p: Params): seq<Field>
  {
    if p.enableHr then [Field(HighresFix, Text("True"))] else []
  }

  /**
   * The fields of the result message, in the order they are added: the
   * prompts shortened, the rest as the backend reported them.
   */
  function SummaryFields(p: Params, seed: string, d: Defaults): (fs: seq<Field>)
    ensures |fs| == 5 + (if ShowsSize(p, d) then 2 else 0) + (if p.cfgScale != d.cfg then 1 else 0)
      + (if p.enableHr then 1 else 0)
    ensures fs[0] == Field(Prompt, Text(Truncate(p.prompt)))
    ensures fs[1] == Field(NegativePrompt, Text(Truncate(p.negativePrompt)))
    ensures fs[2] == Field(Steps, Int(p.steps))
    ensures Field(Sampler, Text(p.samplerIndex)) in fs && Field(Seed, Text(seed)) in fs
  {
    HeadFields(p) + SizeFields(p, d) + MiddleFields(p, seed) + CfgFields(p, d) + HighresFields(p)
  }

  lemma NamesAppend(a: seq<Field>, b: seq<Field>)
    ensures Names(a + b) == Names(a) + Names(b)
  {
  }

  /**
   * The names the summary carries, in order: Prompt, Negative Prompt and Steps,
   * then Height and Width together if the size differs from the default, then
   * Sampler and Seed, then CFG Scale if it differs from the default, then
   * Highres Fix if it was enabled.
   */
  lemma SummaryNames(p: Params, seed: string, d: Defaults)
    ensures Names(SummaryFields(p, seed, d)) ==
      [Prompt, NegativePrompt, Steps]
      + (if ShowsSize(p, d) then [Height, Width] else [])
      + [Sampler, Seed]
      + (if p.cfgScale != d.cfg then [CfgScale] else [])
      + (if p.enableHr then [HighresFix] else [])
  {
    var h, s, m, c, r := HeadFields(p), SizeFields(p, d), MiddleFields(p, seed), CfgFields(p, d), HighresFields(p);
    NamesAppend(h + s + m + c, r);
    NamesAppend(h + s + m, c);
    NamesAppend(h + s, m);
    NamesAppend(h, s);
    assert Names(h) == [Prompt, NegativePrompt, Steps];
    assert Names(s) == if ShowsSize(p, d) then [Height, Width] else [];
    assert Names(m) == [Sampler, Seed];
    assert Names(c) == if p.cfgScale != d.cfg then [CfgScale] else [];
    assert Names(r) == if p.enableHr then [HighresFix] else [];
  }

  /**
   * Height and Width are both present or both absent, and present exactly when
   * either differs from its default.
   */
  lemma SizePresence(p: Params, seed: string, d: Defaults)
    ensures Height in Names(SummaryFields(p, seed, d)) <==> ShowsSize(p, d)
    ensures Width in Names(SummaryFields(p, seed, d)) <==> ShowsSize(p, d)
  {
    SummaryNames(p, seed, d);
  }

  /** CFG Scale is present exactly when it differs from its default. */
  lemma CfgScalePresence(p: Params, seed: string, d: Defaults)
    ensures CfgScale in Names(SummaryFields(p, seed, d)) <==> p.cfgScale != d.cfg
  {
    SummaryNames(p, seed, d);
  }

  /** Highres Fix is present exactly when the high-resolution pass was enabled. */
  lemma HighresPresence(p: Params, seed: string, d: Defaults)
    ensures HighresFix in Names(SummaryFields(p, seed, d)) <==> p.enableHr
  {
    SummaryNames(p, seed, d);
  }

  /** The successive `add_field` calls that fill the result message. */
  method BuildEmbed(p: Params, seed: string, d: Defaults) returns (fields: seq<Field>)
    ensures fields == SummaryFields(p, seed, d)
  {
    fields := [];
    fields := fields + [Field(Prompt, Text(Truncate(p.prompt)))];
    fields := fields + [Field(NegativePrompt, Text(Truncate(p.negativePrompt)))];
    fields := fields + [Field(Steps, Int(p.steps))];
    assert fields == HeadFields(p);
    if p.height != d.height || p.width != d.width {
      fields := fields + [Field(Height, Int(p.height))];
      fields := fields + [Field(Width, Int(p.width))];
    }
    assert fields == HeadFields(p) + SizeFields(p, d);
    fields := fields + [Field(Sampler, Text(p.samplerIndex))];
    fields := fields + [Field(Seed, Text(seed))];
    assert fields == HeadFields(p) + SizeFields(p, d) + MiddleFields(p, seed);
    if p.cfgScale != d.cfg {
      fields := fields + [Field(CfgScale, Real(p.cfgScale))];
    }
    assert fields == HeadFields(p) + SizeFields(p, d) + MiddleFields(p, seed) + CfgFields(p, d);
    if p.enableHr {
      fields := fields + [Field(HighresFix, Text("True"))];
    }
  }
}
