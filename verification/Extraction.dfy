/** Skeleton extraction over all languages, and the cache in front of it. */
module Extraction {
  import opened Text
  import opened Languages
  import Signatures
  import Skeleton
  import PythonSkeleton
  import MarkdownText
  import Cache = SkeletonCache

  datatype SkeletonResult = SkeletonResult(language: Language, originalLines: nat, prunedLines: nat,
                                           originalTokens: nat, prunedTokens: nat, skeleton: string)

  /** About four bytes a token, rounded up. */
  function EstimateTokens(text: string): (n: nat)
    ensures 4 * n >= ByteLength(text) && (n > 0 ==> 4 * (n - 1) < ByteLength(text))
  {
    (ByteLength(text) + 3) / 4
  }

  function SkeletonOf(source: string, lang: Language): string {
    match lang
    case Python => Join(PythonSkeleton.PruneLines(Lines(source)))
    case Markdown => MarkdownText.PruneMarkdown(source)
    case Unknown => source
    case _ => Join(Skeleton.PruneLines(Signatures.PrunerOf(lang), Lines(source)))
  }

  function ResultOf(c: Cache.Call): SkeletonResult {
    var s := SkeletonOf(c.source, c.lang);
    SkeletonResult(c.lang, |Lines(c.source)|, |Lines(s)|, EstimateTokens(c.source), EstimateTokens(s), s)
  }

  lemma BracedSkeleton(source: string, lang: Language)
    requires Signatures.Braced(lang)
    ensures SkeletonOf(source, lang) == Join(Skeleton.PruneLines(Signatures.PrunerOf(lang), Lines(source)))
  {
  }

  method Prune(source: string, lang: Language) returns (skeleton: string)
    ensures skeleton == SkeletonOf(source, lang)
  {
    if lang == Python {
      skeleton := PythonSkeleton.Prune(source);
    } else if lang == Markdown {
      skeleton := MarkdownText.Prune(source);
    } else if lang == Unknown {
      skeleton := source;
    } else {
      BracedSkeleton(source, lang);
      skeleton := Skeleton.Prune(lang, source);
    }
  }

  /** `extract_skeleton` */
  method Extract(source: string, lang: Language) returns (result: SkeletonResult)
    ensures result == ResultOf(Cache.Call(source, lang))
  {
    var skeleton := Prune(source, lang);
    result := SkeletonResult(lang, |Lines(source)|, |Lines(skeleton)|, EstimateTokens(source), EstimateTokens(skeleton), skeleton);
  }

  /** The cache in front of the extractor is invisible over all runs exactly when no two
      sources of a language share hash, byte length and first 64 characters but not the result. */
  lemma CachedExtraction(hash: string -> nat)
    ensures Cache.Transparent(hash, ResultOf) <==> Cache.Unconfused(hash, ResultOf)
  {
    Cache.TransparentIff(hash, ResultOf);
  }
}
