/** The text the plugins splice into webpack's generated bootstrap source. */
module RuntimePatch {
  import opened StringReplace

  /** The call webpack 4's JSONP template uses to build a chunk's URL. */
  const JsonpScriptSrc: string := "jsonpScriptSrc(chunkId)"

  /** A JavaScript string literal as it appears in generated source. */
  function Quoted(s: string): (q: string)
    ensures |q| == |s| + 2 && q[0] == q[|q| - 1] == '"' && q[1..|q| - 1] == s
  {
    "\"" + s + "\""
  }

  /** `window["<variable>"][<chunkIdVar>]`: the runtime lookup of a chunk's path
      in the manifest variable. */
  function Lookup(variable: string, chunkIdVar: string): (e: string)
    ensures |e| == |variable| + |chunkIdVar| + 12
    ensures e[8..8 + |variable|] == variable
    ensures e[|variable| + 11..|e| - 1] == chunkIdVar
  {
    "window[\"" + variable + "\"][" + chunkIdVar + "]"
  }

  /** Phase B's first replace: the first quoted placeholder becomes the lookup. */
  function ReplacePlaceholder(placeholder: string, variable: string, chunkIdVar: string, source: string): (r: string)
    ensures (forall j: nat :: !MatchAt(source, Quoted(placeholder), j)) ==> r == source
  {
    ReplaceFirst(source, Quoted(placeholder), Lookup(variable, chunkIdVar))
  }

  /** webpack 4's second replace: the first `jsonpScriptSrc(chunkId)` becomes
      the public path followed by the lookup. */
  function ReplaceScriptSrc(variable: string, chunkIdVar: string, source: string): (r: string)
    ensures (forall j: nat :: !MatchAt(source, JsonpScriptSrc, j)) ==> r == source
  {
    ReplaceFirst(source, JsonpScriptSrc, "__webpack_require__.p + " + Lookup(variable, chunkIdVar))
  }

  /** Only the first placeholder is replaced: a source that starts with the
      placeholder keeps everything after it, later placeholders included. */
  lemma {:induction false} LaterPlaceholdersKept(placeholder: string, variable: string, chunkIdVar: string, rest: string)
    ensures ReplacePlaceholder(placeholder, variable, chunkIdVar, Quoted(placeholder) + rest) ==
            Lookup(variable, chunkIdVar) + rest
  {
    OnlyFirstReplaced(Quoted(placeholder), rest, Lookup(variable, chunkIdVar));
  }

  /** Two placeholders in one source: after the rewrite the second is still there. */
  lemma SecondPlaceholderSurvives(placeholder: string, variable: string, chunkIdVar: string)
    ensures var q := Quoted(placeholder);
            var r := ReplacePlaceholder(placeholder, variable, chunkIdVar, q + q);
            MatchAt(r, q, |Lookup(variable, chunkIdVar)|)
  {
    var q := Quoted(placeholder);
    LaterPlaceholdersKept(placeholder, variable, chunkIdVar, q);
    var l := Lookup(variable, chunkIdVar);
    assert (l + q)[|l|..|l| + |q|] == q;
  }

  /** `<script>window["<variable>"] = <json></script>`: the inline manifest
      script handed to html-webpack-plugin. */
  function InlineScript(variable: string, json: string): (html: string)
    ensures |html| == |variable| + |json| + 30
    ensures html[..16] == "<script>window[\""
    ensures html[16..16 + |variable|] == variable
    ensures html[16 + |variable|..21 + |variable|] == "\"] = "
    ensures html[21 + |variable|..|html| - 9] == json
    ensures html[|html| - 9..] == "</script>"
  {
    "<script>window[\"" + variable + "\"] = " + json + "</script>"
  }
}
