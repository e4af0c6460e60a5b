/**
 * The constant tables of src/clip_finder_v3.py: the ten viral clip patterns
 * (identifier, display name, trigger phrases, weight) in dictionary order,
 * the bad conversational openers and the jargon terms.
 */
module ClipPatterns {
  import opened Wrappers

  datatype ClipPattern = ClipPattern(id: string, name: string, triggers: seq<string>, weight: real)

  const Catalog: seq<ClipPattern> := [
    ClipPattern("contrast", "Contrast/Paradox",
      ["never been worse", "never been better", "isn't about", "it's actually",
       "on one hand", "on the other", "the opposite is true", "but here's the thing"], 1.3),
    ClipPattern("bold_prediction", "Bold Prediction",
      ["my thesis is", "i think we'll see", "i predict", "i expect", "going to happen",
       "will be worth", "by 2025", "by 2026", "by end of year", "this cycle", "next cycle"], 1.4),
    ClipPattern("contradiction_callout", "Contradiction Callout",
      ["can't have it both ways", "doesn't make sense", "the problem with", "contradiction",
       "but wait", "that's not how it works"], 1.2),
    ClipPattern("consequence_chain", "If-Then Consequence",
      ["if we see", "if this happens", "when this", "the fallout", "leads to", "which means",
       "the second order effect", "what people don't realize"], 1.2),
    ClipPattern("hot_take", "Hot Take/Death Declaration",
      ["is dead", "is over", "is done", "thing of the past", "nobody cares about",
       "doesn't matter anymore", "forget about"], 1.3),
    ClipPattern("meme_analogy", "Meme/Cultural Reference",
      ["that meme", "like the meme", "reminds me of", "it's like when", "you know how",
       "remember when", "there's this joke"], 1.25),
    ClipPattern("sarcastic_mock", "Sarcastic Devil's Advocate",
      ["how dare", "what a crime", "oh no", "god forbid", "imagine thinking", "the audacity"], 1.2),
    ClipPattern("specific_numbers", "Specific Numbers/Data",
      ["percent", "%", "million", "billion", "hundred", "thousand", "2x", "3x", "10x", "100x"], 1.1),
    ClipPattern("walkthrough", "Step-by-Step Walkthrough",
      ["first you", "then you", "step one", "step two", "here's how it works", "the process is",
       "and then", "and suddenly"], 1.15),
    ClipPattern("redefine", "Redefining a Term",
      ["isn't really", "isn't just", "it's actually", "what it really means", "the real meaning",
       "think of it as", "better way to think about"], 1.3)
  ]

  /** Openers that mark a clip as starting mid-thought. */
  const BadOpeners: seq<string> := [
    "but ", "so ", "and ", "or ", "what we ", "what i ", "i mean ", "you know ",
    "like i said", "as i mentioned", "going back to", "to your point",
    "um ", "uh ", "yeah ", "right so", "okay so"
  ]

  const JargonTerms: seq<string> := [
    "term structure", "yield curve", "liquidity provision", "collateralization ratio",
    "utilization rate", "impermanent loss", "slippage tolerance", "rebalancing mechanism",
    "arbitrage opportunity", "cross-margining", "delta neutral"
  ]

  /** `CLIP_PATTERNS[pid]` on a pattern table. */
  function ById(ps: seq<ClipPattern>, pid: string): (r: Option<ClipPattern>)
    ensures r.Some? ==> r.value in ps && r.value.id == pid
    ensures r.None? ==> forall k :: 0 <= k < |ps| ==> ps[k].id != pid
    decreases |ps|
  {
    if ps == [] then None
    else if ps[0].id == pid then Some(ps[0])
    else ById(ps[1..], pid)
  }
}
