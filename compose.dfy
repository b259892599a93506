/**
 * `_composevideo_prompt_from_structured_config` (graph.py:269-352): turn a
 * structured storyboard config (duration, fps, aspect, style, characters,
 * shots) into one prompt text.
 */
module ComposePrompt {
  import opened Wrappers
  import opened Strings
  import opened Json
  import opened Seqs

  /** The first line of every prompt (graph.py:280). */
  const Header := "15秒分镜视频提示词（分镜清单 + 镜头语言）"

  /** `prefix + x.strip()` when `x` is a non-blank string, as a zero- or one-element list. */
  function Labelled(prefix: string, v: Json): (r: seq<string>)
    ensures |r| <= 1 && (r == [] <==> StrippedText(v).None?)
    ensures r != [] ==> r[0] == prefix + StrippedText(v).value
  {
    match StrippedText(v)
    case Some(t) => [prefix + t]
    case None => []
  }

  /** `cfg.get("durationSeconds") or cfg.get("duration") or cfg.get("duration_sec")` */
  function DurationOf(cfg: map<string, Json>): Json {
    Or(Or(Get(cfg, "durationSeconds"), Get(cfg, "duration")), Get(cfg, "duration_sec"))
  }

  /** `cfg.get("aspectRatio") or cfg.get("aspect") or cfg.get("ratio")` */
  function AspectOf(cfg: map<string, Json>): Json {
    Or(Or(Get(cfg, "aspectRatio"), Get(cfg, "aspect")), Get(cfg, "ratio"))
  }

  /** One when the condition holds, else zero. */
  function Count(b: bool): nat {
    if b then 1 else 0
  }

  /** The duration / FPS / aspect line items (graph.py:282-287): a duration bit
      exactly for a numeric duration, then an FPS bit exactly for a numeric
      `fps`, then an aspect bit exactly for a non-blank aspect, each with its
      own text. */
  function MetaBits(cfg: map<string, Json>): (r: seq<string>)
    ensures var hasD := IsNumber(DurationOf(cfg));
      var hasF := IsNumber(Get(cfg, "fps"));
      var hasA := StrippedText(AspectOf(cfg)).Some?;
      && |r| == Count(hasD) + Count(hasF) + Count(hasA)
      && (hasD ==> r[0] == "时长: " + PyStr(DurationOf(cfg)) + "s")
      && (hasF ==> r[Count(hasD)] == "FPS: " + IntToString(IntOf(Get(cfg, "fps"))))
      && (hasA ==> r[|r| - 1] == "画幅: " + StrippedText(AspectOf(cfg)).value)
  {
    var duration := DurationOf(cfg);
    var fps := Get(cfg, "fps");
    (if IsNumber(duration) then ["时长: " + PyStr(duration) + "s"] else [])
    + (if IsNumber(fps) then ["FPS: " + IntToString(IntOf(fps))] else [])
    + Labelled("画幅: ", AspectOf(cfg))
  }

  /** `"- " + rest` strips to itself, or to "-" when `rest` is empty. */
  lemma DashLineStrip(rest: string)
    requires rest == [] || !IsSpace(rest[|rest| - 1])
    ensures Strip("- " + rest) == if rest == [] then "-" else "- " + rest
  {
    if rest == [] {
      assert Strip("- ") == Strip("-");
    } else {
      StripTrimmed("- " + rest);
    }
  }

  /** A piece with no white space at its end, or nothing. */
  predicate TrimmedEnd(s: string) {
    s == [] || !IsSpace(s[|s| - 1])
  }

  /** A stripped non-blank text. */
  predicate Trimmed(t: Option<string>) {
    t.Some? ==> t.value != [] && !IsSpace(t.value[0]) && !IsSpace(t.value[|t.value| - 1])
  }

  /** The line built from the stripped name, reference and notes (graph.py:302-310). */
  function CharacterLineOf(name: Option<string>, ref: Option<string>, notes: Option<string>): Option<string> {
    var l1 := if name.Some? then "- " + name.value else "- ";
    var l2 := if ref.None? then l1
              else if Strip(l1) != "-" then l1 + "（参考: " + ref.value + "）"
              else l1 + ref.value;
    var l3 := if notes.Some? then l2 + "：" + notes.value else l2;
    if Strip(l3) != "-" then Some(l3) else None
  }

  /** Whether a dash line `"- " + rest` strips to more than the dash. */
  lemma DashLineKept(rest: string)
    requires TrimmedEnd(rest)
    ensures (Strip("- " + rest) != "-") == (rest != [])
  {
    DashLineStrip(rest);
    if rest != [] {
      assert |Strip("- " + rest)| == 2 + |rest|;
    }
  }

  /** The text after the dash once the reference is added. */
  function WithRef(r1: string, ref: Option<string>): string {
    if ref.None? then r1
    else if r1 != [] then r1 + "（参考: " + ref.value + "）"
    else r1 + ref.value
  }

  /** The text after the dash once the notes are added. */
  function WithNotes(r2: string, notes: Option<string>): string {
    if notes.Some? then r2 + "：" + notes.value else r2
  }

  /** Adding the reference to a dash line adds it to the text after the dash. */
  lemma RefStep(r1: string, ref: Option<string>)
    requires TrimmedEnd(r1) && Trimmed(ref)
    ensures var l1 := "- " + r1;
      (if ref.None? then l1
       else if Strip(l1) != "-" then l1 + "（参考: " + ref.value + "）"
       else l1 + ref.value) == "- " + WithRef(r1, ref)
    ensures TrimmedEnd(WithRef(r1, ref))
    ensures WithRef(r1, ref) == [] <==> r1 == [] && ref.None?
    ensures StartsWith(WithRef(r1, ref), r1)
  {
    DashLineKept(r1);
    if ref.Some? {
      var w := WithRef(r1, ref);
      assert w[..|r1|] == r1;
      if r1 != [] {
        assert ("- " + r1) + "（参考: " + ref.value + "）" == "- " + (r1 + "（参考: " + ref.value + "）");
      } else {
        assert ("- " + r1) + ref.value == "- " + (r1 + ref.value);
      }
    }
  }

  /** Adding the notes to a dash line adds them to the text after the dash. */
  lemma NotesStep(r2: string, notes: Option<string>)
    requires TrimmedEnd(r2) && Trimmed(notes)
    ensures (if notes.Some? then ("- " + r2) + "：" + notes.value else "- " + r2) == "- " + WithNotes(r2, notes)
    ensures TrimmedEnd(WithNotes(r2, notes))
    ensures WithNotes(r2, notes) == [] <==> r2 == [] && notes.None?
    ensures StartsWith(WithNotes(r2, notes), r2)
  {
    if notes.Some? {
      assert ("- " + r2) + "：" + notes.value == "- " + (r2 + "：" + notes.value);
      assert WithNotes(r2, notes)[..|r2|] == r2;
    }
  }

  /** The text after the dash of a character line. */
  function Rest(name: Option<string>, ref: Option<string>, notes: Option<string>): string {
    WithNotes(WithRef(if name.Some? then name.value else "", ref), notes)
  }

  /** A character line is the dash followed by `Rest`, kept when `Rest` is non-empty. */
  lemma CharacterLineOfRest(name: Option<string>, ref: Option<string>, notes: Option<string>)
    requires Trimmed(name) && Trimmed(ref) && Trimmed(notes)
    ensures CharacterLineOf(name, ref, notes) ==
      if Rest(name, ref, notes) != [] then Some("- " + Rest(name, ref, notes)) else None
  {
    var r1 := if name.Some? then name.value else "";
    assert (if name.Some? then "- " + name.value else "- ") == "- " + r1;
    RefStep(r1, ref);
    NotesStep(WithRef(r1, ref), notes);
    DashLineKept(Rest(name, ref, notes));
  }

  /** `Rest` is empty exactly when all three pieces are missing, and starts with the name. */
  lemma RestSpec(name: Option<string>, ref: Option<string>, notes: Option<string>)
    requires Trimmed(name) && Trimmed(ref) && Trimmed(notes)
    ensures Rest(name, ref, notes) == [] <==> name.None? && ref.None? && notes.None?
    ensures name.Some? ==> StartsWith(Rest(name, ref, notes), name.value)
  {
    var r1 := if name.Some? then name.value else "";
    RefStep(r1, ref);
    NotesStep(WithRef(r1, ref), notes);
    var r3 := Rest(name, ref, notes);
    assert r3[..|r1|] == r1 by {
      assert r3[..|WithRef(r1, ref)|] == WithRef(r1, ref);
      assert WithRef(r1, ref)[..|r1|] == r1;
    }
  }

  /** A line is kept exactly when one of its three pieces is present, and it
      starts with the name when there is one. */
  lemma CharacterLineOfSpec(name: Option<string>, ref: Option<string>, notes: Option<string>)
    requires Trimmed(name) && Trimmed(ref) && Trimmed(notes)
    ensures CharacterLineOf(name, ref, notes).Some? <==> name.Some? || ref.Some? || notes.Some?
    ensures CharacterLineOf(name, ref, notes).Some? && name.Some? ==>
      StartsWith(CharacterLineOf(name, ref, notes).value, "- " + name.value)
  {
    CharacterLineOfRest(name, ref, notes);
    RestSpec(name, ref, notes);
    var r3 := Rest(name, ref, notes);
    if name.Some? && r3 != [] {
      assert ("- " + r3)[..|"- " + name.value|] == "- " + name.value by {
        assert r3[..|name.value|] == name.value;
      }
    }
  }

  /** The line one character entry becomes (graph.py:297-310), if any. */
  function CharacterLine(c: Json): Option<string> {
    if !c.JObj? then None
    else CharacterLineOf(
      StrippedText(Get(c.fields, "name")),
      StrippedText(Or(Or(Get(c.fields, "ref"), Get(c.fields, "label")), Get(c.fields, "nodeId"))),
      StrippedText(Get(c.fields, "notes")))
  }

  /** A character entry gives a line exactly when it is a dict with a non-blank
      name, reference or notes; the name, when present, comes first. */
  lemma CharacterLineSpec(c: Json)
    ensures CharacterLine(c).Some? <==>
      c.JObj? && (StrippedText(Get(c.fields, "name")).Some?
        || StrippedText(Or(Or(Get(c.fields, "ref"), Get(c.fields, "label")), Get(c.fields, "nodeId"))).Some?
        || StrippedText(Get(c.fields, "notes")).Some?)
    ensures CharacterLine(c).Some? && StrippedText(Get(c.fields, "name")).Some? ==>
      StartsWith(CharacterLine(c).value, "- " + StrippedText(Get(c.fields, "name")).value)
  {
    if c.JObj? {
      var m := c.fields;
      var refJ := Or(Or(Get(m, "ref"), Get(m, "label")), Get(m, "nodeId"));
      if StrippedText(Get(m, "name")).Some? {
        StrippedEdges(Get(m, "name"));
      }
      if StrippedText(refJ).Some? {
        StrippedEdges(refJ);
      }
      if StrippedText(Get(m, "notes")).Some? {
        StrippedEdges(Get(m, "notes"));
      }
      CharacterLineOfSpec(StrippedText(Get(m, "name")), StrippedText(refJ), StrippedText(Get(m, "notes")));
    }
  }

  /** `CharacterLine` in the shape of the list-building loop. */
  function CharacterLineAt(i: nat, c: Json): Option<string> {
    CharacterLine(c)
  }

  /** The loop at graph.py:297-310. */
  method CharacterLines(chars: seq<Json>) returns (lines: seq<string>)
    ensures lines == FilterMap(CharacterLineAt, chars)
  {
    lines := [];
    var i := 0;
    while i < |chars|
      invariant 0 <= i <= |chars|
      invariant lines == FilterMapUpTo(CharacterLineAt, chars, i)
    {
      FilterMapNext(CharacterLineAt, chars, i);
      var line := CharacterLine(chars[i]);
      lines := lines + AsSeq(line);
      i := i + 1;
    }
  }

  /** The keys of a shot's optional segments and their prefixes, in the order
      they are added (graph.py:331-340). */
  const ShotFields: seq<(string, string)> := [
    ("shotSize", "景别: "), ("camera", "机位/镜头: "), ("movement", "运动: "),
    ("action", "内容: "), ("composition", "构图: ")]

  /** The segment of an optional field, when its value is a non-blank string. */
  function FieldSegmentAt(m: map<string, Json>): (nat, (string, string)) -> Option<string> {
    (i: nat, f: (string, string)) => match StrippedText(Get(m, f.0)) case Some(t) => Some(f.1 + t) case None => None
  }

  /** The id (or `S<idx>`), with the stripped time range in brackets when there is one. */
  function ShotHeader(idx: nat, m: map<string, Json>): string {
    var sid := Or(Get(m, "id"), JStr("S" + NatToString(idx)));
    PyStr(sid) + (match StrippedText(Get(m, "time")) case Some(t) => "（" + t + "）" case None => "")
  }

  /** The number of the first `n` optional fields that hold non-blank text. */
  function Present(m: map<string, Json>, n: nat): nat
    requires n <= |ShotFields|
  {
    if n == 0 then 0 else Present(m, n - 1) + Count(StrippedText(Get(m, ShotFields[n - 1].0)).Some?)
  }

  /** The segments of one shot (graph.py:320-341): its header, then the segments
      of the non-blank fields in the fixed order. */
  function ShotSegments(idx: nat, m: map<string, Json>): (seg: seq<string>)
    ensures 1 <= |seg| <= 6 && seg[0] == ShotHeader(idx, m)
  {
    [ShotHeader(idx, m)] + FilterMap(FieldSegmentAt(m), ShotFields)
  }

  /** The optional segments counted so far are those of the non-blank fields. */
  lemma {:induction false} FieldSegmentsCount(m: map<string, Json>, n: nat)
    requires n <= |ShotFields|
    ensures |FilterMapUpTo(FieldSegmentAt(m), ShotFields, n)| == Present(m, n)
  {
    if n > 0 {
      FieldSegmentsCount(m, n - 1);
    }
  }

  /** There is one segment per non-blank field after the header, and the
      `i`-th field's segment, when it has one, is its prefix and stripped
      text, placed after the segments of the non-blank fields before it. */
  lemma ShotSegmentsSpec(idx: nat, m: map<string, Json>, i: nat)
    requires i < |ShotFields|
    ensures |ShotSegments(idx, m)| == 1 + Present(m, |ShotFields|)
    ensures StrippedText(Get(m, ShotFields[i].0)).Some? ==>
      1 + Present(m, i) < |ShotSegments(idx, m)| &&
      ShotSegments(idx, m)[1 + Present(m, i)] == ShotFields[i].1 + StrippedText(Get(m, ShotFields[i].0)).value
  {
    FieldSegmentsCount(m, |ShotFields|);
    FieldSegmentsCount(m, i);
    if StrippedText(Get(m, ShotFields[i].0)).Some? {
      FilterMapAt(FieldSegmentAt(m), ShotFields, |ShotFields|, i);
    }
  }

  /** The line of the `idx`-th shot (counting from 1), if it is a dict (graph.py:315-342). */
  function ShotLine(idx: nat, s: Json): (r: Option<string>)
    ensures r.Some? <==> s.JObj?
  {
    if s.JObj? then Some("- " + Join("；", ShotSegments(idx, s.fields))) else None
  }

  /** A shot line starts with the shot's id, or `S<idx>` when it has none. */
  lemma ShotLineStartsWithId(idx: nat, s: Json)
    requires s.JObj?
    ensures StartsWith(ShotLine(idx, s).value, "- " + PyStr(Or(Get(s.fields, "id"), JStr("S" + NatToString(idx)))))
  {
    var seg := ShotSegments(idx, s.fields);
    JoinStartsWithFirst("；", seg);
    var sid := PyStr(Or(Get(s.fields, "id"), JStr("S" + NatToString(idx))));
    assert StartsWith(seg[0], sid);
    var j := Join("；", seg);
    assert j[..|sid|] == seg[0][..|sid|];
    assert ("- " + j)[..|"- " + sid|] == "- " + j[..|sid|];
  }

  /** `ShotLine` in the shape of the list-building loop (`enumerate(shots, start=1)`). */
  function ShotLineAt(i: nat, s: Json): Option<string> {
    ShotLine(i + 1, s)
  }

  /** The body of the shot loop (graph.py:318-342) for the `i`-th shot. */
  method ComposeShotLine(i: nat, s: Json) returns (line: Option<string>)
    ensures line == ShotLineAt(i, s)
  {
    line := if s.JObj? then Some("- " + Join("；", ShotSegments(i + 1, s.fields))) else None;
  }

  /** The loop at graph.py:315-342. */
  method ShotLines(shots: seq<Json>) returns (lines: seq<string>)
    ensures lines == FilterMap(ShotLineAt, shots)
  {
    lines := [];
    var i := 0;
    while i < |shots|
      invariant 0 <= i <= |shots|
      invariant lines == FilterMapUpTo(ShotLineAt, shots, i)
    {
      FilterMapNext(ShotLineAt, shots, i);
      var line := ComposeShotLine(i, shots[i]);
      lines := lines + AsSeq(line);
      i := i + 1;
    }
  }

  /** `x if isinstance(x, list) else []` */
  function ListOrEmpty(j: Json): seq<Json> {
    if j.JArr? then j.items else []
  }

  /** The `parts` list before joining (graph.py:279-342). */
  function Parts(cfg: map<string, Json>, charLines: seq<string>, shotLines: seq<string>): (r: seq<string>)
    ensures r != [] && r[0] == Header
  {
    var chars := ListOrEmpty(Get(cfg, "characters"));
    var shots := ListOrEmpty(Get(cfg, "shots"));
    var meta := MetaBits(cfg);
    [Header]
    + (if meta != [] then [Join(" / ", meta)] else [])
    + Labelled("风格基准: ", Or(Or(Get(cfg, "style"), Get(cfg, "visualStyle")), Get(cfg, "look")))
    + Labelled("音乐/音效: ", Or(Or(Get(cfg, "musicSfx"), Get(cfg, "music")), Get(cfg, "sfx")))
    + (if chars != [] then ["", "角色（保持与画布设定一致）："] + charLines else [])
    + (if shots != [] then ["", "分镜（逐镜头）："] + shotLines else [])
  }

  /** The freeform-key fallback (graph.py:348-351). */
  function FreeformPrompt(cfg: map<string, Json>): string {
    match StrippedText(Get(cfg, "prompt"))
    case Some(t) => t
    case None =>
      match StrippedText(Get(cfg, "videoPrompt"))
      case Some(t) => t
      case None =>
        match StrippedText(Get(cfg, "storyboard"))
        case Some(t) => t
        case None => ""
  }

  /** The whole conversion. */
  function ComposeFromConfig(cfg: map<string, Json>): string {
    var chars := ListOrEmpty(Get(cfg, "characters"));
    var shots := ListOrEmpty(Get(cfg, "shots"));
    var out := Strip(Join("\n", Parts(cfg, FilterMap(CharacterLineAt, chars), FilterMap(ShotLineAt, shots))));
    if out != [] then out else FreeformPrompt(cfg)
  }

  /** The prompt always begins with the header line, so it is never empty and
      the freeform-key fallback is never reached. */
  lemma ComposeStartsWithHeader(cfg: map<string, Json>)
    ensures StartsWith(ComposeFromConfig(cfg), Header)
    ensures ComposeFromConfig(cfg) != []
  {
    var chars := ListOrEmpty(Get(cfg, "characters"));
    var shots := ListOrEmpty(Get(cfg, "shots"));
    var parts := Parts(cfg, FilterMap(CharacterLineAt, chars), FilterMap(ShotLineAt, shots));
    JoinStartsWithFirst("\n", parts);
    StripKeepsHead(Join("\n", parts), Header);
  }

  /** A text that opens with the header is not blank. */
  lemma HeaderNotBlank(s: string)
    requires StartsWith(s, Header)
    ensures !IsBlank(s)
  {
    assert s[0] == Header[0];
    NotBlankByHead(s);
  }

  /** The character lines follow the characters heading, in the entries' order. */
  lemma CharacterLinesFollowHeading(cfg: map<string, Json>, charLines: seq<string>, shotLines: seq<string>) returns (k: nat)
    requires ListOrEmpty(Get(cfg, "characters")) != []
    ensures k + 2 + |charLines| <= |Parts(cfg, charLines, shotLines)|
    ensures Parts(cfg, charLines, shotLines)[k..k + 2 + |charLines|] == ["", "角色（保持与画布设定一致）："] + charLines
  {
    var meta := MetaBits(cfg);
    var head := [Header]
      + (if meta != [] then [Join(" / ", meta)] else [])
      + Labelled("风格基准: ", Or(Or(Get(cfg, "style"), Get(cfg, "visualStyle")), Get(cfg, "look")))
      + Labelled("音乐/音效: ", Or(Or(Get(cfg, "musicSfx"), Get(cfg, "music")), Get(cfg, "sfx")));
    var p := Parts(cfg, charLines, shotLines);
    k := |head|;
    assert p[k..k + 2 + |charLines|] == ["", "角色（保持与画布设定一致）："] + charLines;
  }

  /** The builder as written: the two loops, then the join, strip and fallback. */
  method Compose(cfg: map<string, Json>) returns (out: string)
    ensures out == ComposeFromConfig(cfg)
    ensures StartsWith(out, Header)
  {
    var chars := ListOrEmpty(Get(cfg, "characters"));
    var shots := ListOrEmpty(Get(cfg, "shots"));
    var charLines := CharacterLines(chars);
    var shotLines := ShotLines(shots);
    out := Strip(Join("\n", Parts(cfg, charLines, shotLines)));
    if out == [] {
      out := FreeformPrompt(cfg);
    }
    ComposeStartsWithHeader(cfg);
  }
}
