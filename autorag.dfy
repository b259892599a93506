/**
 * `_autorag_normalize_result` (graph.py:43-86): turn a knowledge-base search
 * result into prompt snippets and citable sources. The score's float
 * formatting (`f"score={float(score):.3f}"`) and `json.dumps` are parameters.
 */
module AutoRag {
  import opened Wrappers
  import opened Strings
  import opened Json
  import opened Seqs
  import opened Reply

  const MaxItems := 8
  const MaxDump := 4000

  /** `"KB#" + str(idx)` */
  function KbName(idx: nat): string {
    "KB#" + NatToString(idx)
  }

  /** The fields of the `idx`-th item (counting from 1), read with their fallbacks. */
  function Title(idx: nat, m: map<string, Json>): Json {
    Or(Or(Or(Get(m, "title"), Get(m, "label")), Get(m, "name")), JStr(KbName(idx)))
  }

  function Url(m: map<string, Json>): Json {
    Or(Or(Or(Get(m, "url"), Get(m, "source_url")), Get(m, "source")), JStr(""))
  }

  function Text(m: map<string, Json>): Json {
    Or(Or(Or(Get(m, "text"), Get(m, "content")), Get(m, "snippet")), JStr(""))
  }

  /** `item.get("score") or item.get("similarity") or None` */
  function Score(m: map<string, Json>): Json {
    Or(Or(Get(m, "score"), Get(m, "similarity")), JNull)
  }

  /** The `title | url | score=…` header of an item's snippet. `formatScore`
      is the float formatting, `None` where `float()` raises. */
  function Header(formatScore: Json -> Option<string>, idx: nat, m: map<string, Json>): string {
    var bits :=
      (match StrippedText(Title(idx, m)) case Some(t) => [t] case None => [])
      + (match StrippedText(Url(m)) case Some(u) => [u] case None => [])
      + (if Score(m) != JNull then (match formatScore(Score(m)) case Some(f) => [f] case None => []) else []);
    Strip(Join(" | ", bits))
  }

  /** The snippet of the `i`-th item (0-based), if it is a dict with a non-blank text. */
  function SnippetAt(formatScore: Json -> Option<string>): (nat, Json) -> Option<string> {
    (i: nat, item: Json) =>
      if !item.JObj? then None
      else
        var t := Text(item.fields);
        var body := if t.JStr? then Strip(t.s) else "";
        var header := Header(formatScore, i + 1, item.fields);
        if body == [] then None
        else if header != [] then Some("[" + NatToString(i + 1) + "] " + header + "\n" + body)
        else Some("[" + NatToString(i + 1) + "]\n" + body)
  }

  /** The source of the `i`-th item (0-based), if it is a dict with a non-blank URL. */
  function SourceAt(i: nat, item: Json): (r: Option<Source>)
    ensures r.Some? ==> r.value.shortUrl == r.value.value && !IsBlank(r.value.value)
  {
    if !item.JObj? then None
    else
      var url := Url(item.fields);
      var title := Title(i + 1, item.fields);
      if url.JStr? && !IsBlank(url.s) then
        Some(Source(if title.JStr? then title.s else KbName(i + 1), url.s, url.s))
      else None
  }

  /** `raw_sources[:8]` */
  function FirstItems(raw: Json): seq<Json> {
    if !raw.JArr? then []
    else if |raw.items| <= MaxItems then raw.items
    else raw.items[..MaxItems]
  }

  /** `(snippets, sources)` for a search result; `dumps` is `json.dumps`, `None` where it raises. */
  function Normalize(formatScore: Json -> Option<string>, dumps: Json -> Option<string>, result: Json): (seq<string>, seq<Source>) {
    if !result.JObj? then ([], [])
    else
      var m := result.fields;
      var answer := Or(Or(Get(m, "answer"), Get(m, "output")), Get(m, "response"));
      var head := match StrippedText(answer) case Some(a) => [a] case None => [];
      var raw := Or(Or(Or(Get(m, "sources"), Get(m, "results")), Get(m, "documents")), JArr([]));
      var items := FirstItems(raw);
      var snippets := head + FilterMap(SnippetAt(formatScore), items);
      var sources := FilterMap(SourceAt, items);
      if snippets != [] then (snippets, sources)
      else
        var dumped := match dumps(result) case Some(d) => d case None => PyStr(result);
        ([Take(dumped, MaxDump)], sources)
  }

  /** A non-dict result gives nothing; a dict gives at least one snippet and at
      most nine, at most eight sources, and each source cites its own URL. */
  lemma NormalizeBounds(formatScore: Json -> Option<string>, dumps: Json -> Option<string>, result: Json)
    ensures !result.JObj? ==> Normalize(formatScore, dumps, result) == ([], [])
    ensures result.JObj? ==> 1 <= |Normalize(formatScore, dumps, result).0| <= MaxItems + 1
    ensures |Normalize(formatScore, dumps, result).1| <= MaxItems
    ensures forall s :: s in Normalize(formatScore, dumps, result).1 ==> s.shortUrl == s.value && !IsBlank(s.value)
  {
    if result.JObj? {
      var m := result.fields;
      var raw := Or(Or(Or(Get(m, "sources"), Get(m, "results")), Get(m, "documents")), JArr([]));
      var items := FirstItems(raw);
      forall s | s in FilterMap(SourceAt, items)
        ensures s.shortUrl == s.value && !IsBlank(s.value)
      {
        var i := FilterMapFrom(SourceAt, items, |items|, s);
      }
    }
  }

  /** Every item snippet opens with its 1-based position in the list. */
  lemma SnippetNumbered(formatScore: Json -> Option<string>, i: nat, item: Json)
    requires SnippetAt(formatScore)(i, item).Some?
    ensures StartsWith(SnippetAt(formatScore)(i, item).value, "[" + NatToString(i + 1) + "]")
  {
    var n := "[" + NatToString(i + 1) + "]";
    assert SnippetAt(formatScore)(i, item).value[..|n|] == n;
  }

  /** A source is produced exactly for the dict items with a non-blank URL string. */
  lemma SourceAtSpec(i: nat, item: Json)
    ensures SourceAt(i, item).Some? <==> item.JObj? && Url(item.fields).JStr? && !IsBlank(Url(item.fields).s)
  {
  }

  /** The loop at graph.py:58-79 over the first eight items. */
  method NormalizeItems(formatScore: Json -> Option<string>, items: seq<Json>) returns (snippets: seq<string>, sources: seq<Source>)
    ensures snippets == FilterMap(SnippetAt(formatScore), items)
    ensures sources == FilterMap(SourceAt, items)
  {
    snippets, sources := [], [];
    var i := 0;
    while i < |items|
      invariant 0 <= i <= |items|
      invariant snippets == FilterMapUpTo(SnippetAt(formatScore), items, i)
      invariant sources == FilterMapUpTo(SourceAt, items, i)
    {
      FilterMapNext(SnippetAt(formatScore), items, i);
      FilterMapNext(SourceAt, items, i);
      var item := items[i];
      if item.JObj? {
        var idx := i + 1;
        var title := Title(idx, item.fields);
        var url := Url(item.fields);
        var text := Text(item.fields);
        var header := Header(formatScore, idx, item.fields);
        var body := if text.JStr? then Strip(text.s) else "";
        if body != [] {
          snippets := snippets + [if header != [] then "[" + NatToString(idx) + "] " + header + "\n" + body
                                  else "[" + NatToString(idx) + "]\n" + body];
        }
        if url.JStr? && !IsBlank(url.s) {
          sources := sources + [Source(if title.JStr? then title.s else KbName(idx), url.s, url.s)];
        }
      }
      i := i + 1;
    }
  }
}
