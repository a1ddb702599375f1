/**
 * The second half of the composer: resolved values are grouped into sentence
 * segments (a run of SUBJECT values becomes one sentence, a run of camera-gear
 * values another) and each segment is formatted as a sentence.
 */
module Assembly {
  import opened Strings
  import opened Schema
  import opened Resolution

  /** How the grouping loop treats a value. */
  datatype Kind = SubjectKind | GearKind | OtherKind

  /** SUBJECT values share a buffer; so do the gear fields of CINEMATOGRAPHY. */
  function KindOf(u: Resolved): (k: Kind)
    ensures k == SubjectKind <==> u.section == "SUBJECT"
    ensures k == GearKind <==> u.section == "CINEMATOGRAPHY" && u.field in GearFields
  {
    if u.section == "SUBJECT" then SubjectKind
    else if u.section == "CINEMATOGRAPHY" && u.field in GearFields then GearKind
    else OtherKind
  }

  predicate AllOfKind(us: seq<Resolved>, k: Kind) {
    forall i | 0 <= i < |us| :: KindOf(us[i]) == k
  }

  /** Length of the longest prefix of `us` whose values are all of kind `k`. */
  function PrefixOfKind(us: seq<Resolved>, k: Kind): (n: nat)
    ensures n <= |us|
    ensures AllOfKind(us[..n], k)
    ensures n == |us| || KindOf(us[n]) != k
    decreases |us|
  {
    if us == [] || KindOf(us[0]) != k then 0
    else
      var m := PrefixOfKind(us[1..], k);
      assert us[..m + 1] == [us[0]] + us[1..][..m];
      1 + m
  }

  /** The values one segment is made of: a maximal buffered run, or one other value. */
  function RunLength(us: seq<Resolved>): (n: nat)
    requires us != []
    ensures 1 <= n <= |us|
  {
    if KindOf(us[0]) == OtherKind then 1 else PrefixOfKind(us, KindOf(us[0]))
  }

  /**
   * The values cut into segments from the front: each piece is a maximal run
   * of SUBJECT values, a maximal run of gear values, or a single other value.
   */
  function Runs(us: seq<Resolved>): (rs: seq<seq<Resolved>>)
    ensures forall j | 0 <= j < |rs| :: rs[j] != [] && AllOfKind(rs[j], KindOf(rs[j][0]))
    ensures forall j | 0 <= j < |rs| :: KindOf(rs[j][0]) == OtherKind ==> |rs[j]| == 1
    decreases |us|
  {
    if us == [] then []
    else
      var n := RunLength(us);
      [us[..n]] + Runs(us[n..])
  }

  /** Concatenation of a sequence of runs. */
  function Flatten(rs: seq<seq<Resolved>>): seq<Resolved>
    decreases |rs|
  {
    if rs == [] then [] else rs[0] + Flatten(rs[1..])
  }

  /** The runs partition the values: read back in order they are the values themselves. */
  lemma {:induction false} RunsPartition(us: seq<Resolved>)
    ensures Flatten(Runs(us)) == us
    decreases |us|
  {
    if us != [] {
      var n := RunLength(us);
      assert Runs(us) == [us[..n]] + Runs(us[n..]);
      FlattenCons(us[..n], Runs(us[n..]));
      RunsPartition(us[n..]);
      assert us[..n] + us[n..] == us;
    }
  }

  lemma FlattenCons(run: seq<Resolved>, rs: seq<seq<Resolved>>)
    ensures Flatten([run] + rs) == run + Flatten(rs)
  {
    assert ([run] + rs)[1..] == rs;
  }

  /** The runs are maximal: two neighbouring runs never share a buffered kind. */
  lemma {:induction false} RunsMaximal(us: seq<Resolved>)
    ensures var rs := Runs(us);
      forall j | 0 <= j < |rs| - 1 ::
        KindOf(rs[j][0]) == OtherKind || KindOf(rs[j][0]) != KindOf(rs[j + 1][0])
    decreases |us|
  {
    if us != [] {
      var n := RunLength(us);
      var rs := Runs(us);
      RunsMaximal(us[n..]);
      assert rs[1..] == Runs(us[n..]);
      if |rs| > 1 && KindOf(us[0]) != OtherKind {
        var rest := us[n..];
        assert Runs(rest)[0] == rest[..RunLength(rest)];
        assert rs[1][0] == us[n];
      }
    }
  }

  /** A full buffer of kind `k` followed by a value of another kind is one run. */
  lemma {:induction false} PrefixOfUniform(buf: seq<Resolved>, rest: seq<Resolved>, k: Kind)
    requires AllOfKind(buf, k)
    requires rest == [] || KindOf(rest[0]) != k
    ensures PrefixOfKind(buf + rest, k) == |buf|
    decreases |buf|
  {
    if buf != [] {
      assert (buf + rest)[1..] == buf[1..] + rest;
      PrefixOfUniform(buf[1..], rest, k);
    }
  }

  lemma RunSplit(buf: seq<Resolved>, rest: seq<Resolved>, k: Kind)
    requires buf != [] && k != OtherKind && AllOfKind(buf, k)
    requires rest == [] || KindOf(rest[0]) != k
    ensures Runs(buf + rest) == [buf] + Runs(rest)
  {
    PrefixOfUniform(buf, rest, k);
    assert (buf + rest)[..|buf|] == buf;
    assert (buf + rest)[|buf|..] == rest;
  }

  /** Emitting a full buffer as a segment leaves the runs of what follows it. */
  lemma FlushStep(segs: seq<string>, buf: seq<Resolved>, rest: seq<Resolved>, k: Kind)
    requires buf != [] && k != OtherKind && AllOfKind(buf, k)
    requires rest == [] || KindOf(rest[0]) != k
    ensures segs + RenderAll(Runs(buf + rest)) == (segs + [Render(buf)]) + RenderAll(Runs(rest))
    ensures k == SubjectKind ==> Render(buf) == SubjectSentence(buf)
    ensures k == GearKind ==> Render(buf) == Join(Texts(buf), ", ")
  {
    FlushRuns(segs, buf, rest, k);
    assert KindOf(buf[0]) == k;
  }

  lemma FlushRuns(segs: seq<string>, buf: seq<Resolved>, rest: seq<Resolved>, k: Kind)
    requires buf != [] && k != OtherKind && AllOfKind(buf, k)
    requires rest == [] || KindOf(rest[0]) != k
    ensures segs + RenderAll(Runs(buf + rest)) == (segs + [Render(buf)]) + RenderAll(Runs(rest))
  {
    RunSplit(buf, rest, k);
    RenderAllCons(buf, Runs(rest));
    PushThenAppend(segs, Render(buf), RenderAll(Runs(rest)));
  }

  lemma ValueThenRest(buf: seq<Resolved>, v: Resolved, rest: seq<Resolved>)
    ensures buf + [v] + rest == buf + ([v] + rest)
  {
  }

  lemma PushThenAppend(segs: seq<string>, s: string, more: seq<string>)
    ensures segs + ([s] + more) == (segs + [s]) + more
  {
  }

  /** Rendering a run in front of other runs puts its segment in front of theirs. */
  lemma RenderAllCons(run: seq<Resolved>, rs: seq<seq<Resolved>>)
    requires run != [] && forall j | 0 <= j < |rs| :: rs[j] != []
    ensures RenderAll([run] + rs) == [Render(run)] + RenderAll(rs)
  {
    assert ([run] + rs)[1..] == rs;
  }

  /** A value that no buffer takes is a segment of its own. */
  lemma OtherStep(segs: seq<string>, v: Resolved, rest: seq<Resolved>)
    requires KindOf(v) == OtherKind
    ensures segs + RenderAll(Runs([v] + rest)) == (segs + [v.text]) + RenderAll(Runs(rest))
  {
    assert ([v] + rest)[..1] == [v];
    assert ([v] + rest)[1..] == rest;
  }

  /** The separator in front of a later SUBJECT value: "; " before framing, ", " otherwise. */
  function SubjectSeparator(u: Resolved): string {
    if u.field == "framing" then "; " else ", "
  }

  /** Each value after the first, preceded by its separator. */
  function SubjectTail(us: seq<Resolved>): string
    decreases |us|
  {
    if us == [] then "" else SubjectTail(us[..|us| - 1]) + SubjectSeparator(us[|us| - 1]) + us[|us| - 1].text
  }

  /** `flushSubject`: the buffered SUBJECT values as one sentence. */
  function SubjectSentence(run: seq<Resolved>): (r: string)
    requires run != []
    ensures |run| == 1 ==> r == run[0].text
    ensures |r| >= |run[0].text|
  {
    run[0].text + SubjectTail(run[1..])
  }

  /** The subject sentence begins with the first value and ends with the last one. */
  lemma SubjectSentenceBounds(run: seq<Resolved>)
    requires run != []
    ensures StartsWith(SubjectSentence(run), run[0].text)
    ensures EndsWith(SubjectSentence(run), run[|run| - 1].text)
  {
    var s := SubjectSentence(run);
    assert s[..|run[0].text|] == run[0].text;
    if |run| > 1 {
      var last := run[|run| - 1].text;
      assert run[1..][..|run[1..]| - 1] == run[1..|run| - 1];
      assert s == run[0].text + SubjectTail(run[1..|run| - 1]) + SubjectSeparator(run[|run| - 1]) + last;
      assert s[|s| - |last|..] == last;
    }
  }

  /** A later value's separator is "; " exactly when it is the framing field. */
  lemma SubjectSentenceAppend(run: seq<Resolved>, u: Resolved)
    requires run != []
    ensures SubjectSentence(run + [u]) == SubjectSentence(run) + SubjectSeparator(u) + u.text
  {
    assert (run + [u])[1..] == run[1..] + [u];
    assert (run[1..] + [u])[..|run[1..]|] == run[1..];
  }

  function Texts(us: seq<Resolved>): (ts: seq<string>)
    ensures |ts| == |us|
    ensures forall i | 0 <= i < |us| :: ts[i] == us[i].text
  {
    seq(|us|, i requires 0 <= i < |us| => us[i].text)
  }

  /** The text of one segment. */
  function Render(run: seq<Resolved>): (r: string)
    requires run != []
    ensures KindOf(run[0]) == SubjectKind ==> r == SubjectSentence(run)
    ensures KindOf(run[0]) == GearKind ==> r == Join(Texts(run), ", ")
    ensures KindOf(run[0]) == OtherKind ==> r == run[0].text
  {
    match KindOf(run[0])
    case SubjectKind => SubjectSentence(run)
    case GearKind => Join(Texts(run), ", ")
    case OtherKind => run[0].text
  }

  function RenderAll(rs: seq<seq<Resolved>>): (ss: seq<string>)
    requires forall j | 0 <= j < |rs| :: rs[j] != []
    ensures |ss| == |rs|
    ensures forall j | 0 <= j < |rs| :: ss[j] == Render(rs[j])
    decreases |rs|
  {
    if rs == [] then [] else [Render(rs[0])] + RenderAll(rs[1..])
  }

  /** The segments of the assembled prompt: one per run. */
  function Segments(units: seq<Resolved>): (ss: seq<string>)
    ensures |ss| == |Runs(units)|
    ensures forall j | 0 <= j < |ss| :: ss[j] == Render(Runs(units)[j])
  {
    RenderAll(Runs(units))
  }

  /** A lone value that no buffer takes is the one segment, unchanged. */
  lemma OtherUnitAlone(u: Resolved)
    requires KindOf(u) == OtherKind
    ensures Segments([u]) == [u.text]
  {
    assert [u][..1] == [u] && [u][1..] == [];
    assert Runs([u]) == [[u]];
  }

  /** There is a segment exactly when there is a value. */
  lemma SegmentsEmpty(units: seq<Resolved>)
    ensures Segments(units) == [] <==> units == []
  {
    RunsPartition(units);
  }

  /**
   * The grouping loop's state as a value: the segments emitted so far and
   * the two buffers.
   */
  datatype Grouping = Grouping(segments: seq<string>, subjectBuf: seq<Resolved>, gearBuf: seq<Resolved>)

  /** Whatever is still buffered, as a sequence of values. */
  function Pending(g: Grouping): seq<Resolved> {
    g.subjectBuf + g.gearBuf
  }

  /** Each buffer holds values of its own kind, and at most one holds any. */
  predicate WellGrouped(g: Grouping) {
    AllOfKind(g.subjectBuf, SubjectKind) && AllOfKind(g.gearBuf, GearKind)
    && (g.subjectBuf == [] || g.gearBuf == [])
  }

  function FlushSubjectOf(g: Grouping): Grouping {
    if g.subjectBuf == [] then g
    else Grouping(g.segments + [SubjectSentence(g.subjectBuf)], [], g.gearBuf)
  }

  function FlushGearOf(g: Grouping): Grouping {
    if g.gearBuf == [] then g
    else Grouping(g.segments + [Join(Texts(g.gearBuf), ", ")], g.subjectBuf, [])
  }

  /** One turn of the grouping loop for the value `v`. */
  function StepOf(g: Grouping, v: Resolved): (r: Grouping)
    ensures |g.segments| <= |r.segments| && r.segments[..|g.segments|] == g.segments
    ensures KindOf(v) == SubjectKind ==> r.gearBuf == [] && r.subjectBuf != [] && r.subjectBuf[|r.subjectBuf| - 1] == v
    ensures KindOf(v) == GearKind ==> r.subjectBuf == [] && r.gearBuf != [] && r.gearBuf[|r.gearBuf| - 1] == v
    ensures KindOf(v) == OtherKind ==> r.subjectBuf == [] && r.gearBuf == [] && r.segments != [] && r.segments[|r.segments| - 1] == v.text
    ensures WellGrouped(g) ==> WellGrouped(r)
  {
    if v.section == "SUBJECT" then
      var h := FlushGearOf(g);
      h.(subjectBuf := h.subjectBuf + [v])
    else if v.section == "CINEMATOGRAPHY" && v.field in GearFields then
      var h := FlushSubjectOf(g);
      h.(gearBuf := h.gearBuf + [v])
    else
      var h := FlushGearOf(FlushSubjectOf(g));
      h.(segments := h.segments + [v.text])
  }

  /** The loop over the values `us`, from the state `g`. */
  function StepAll(g: Grouping, us: seq<Resolved>): Grouping
    decreases |us|
  {
    if us == [] then g else StepAll(StepOf(g, us[0]), us[1..])
  }

  /** The final flushes after the loop. */
  function FinishOf(g: Grouping): Grouping {
    FlushGearOf(FlushSubjectOf(g))
  }

  /** Flushing a full buffer emits it as the segment of its run. */
  lemma FlushMatchesRuns(g: Grouping, rest: seq<Resolved>)
    requires WellGrouped(g) && Pending(g) != []
    requires rest == [] || KindOf(rest[0]) != KindOf(Pending(g)[0])
    ensures FlushGearOf(FlushSubjectOf(g)).segments + RenderAll(Runs(rest))
      == g.segments + RenderAll(Runs(Pending(g) + rest))
    ensures FlushGearOf(FlushSubjectOf(g)).subjectBuf == [] && FlushGearOf(FlushSubjectOf(g)).gearBuf == []
  {
    if g.subjectBuf != [] {
      assert Pending(g) == g.subjectBuf;
      FlushStep(g.segments, g.subjectBuf, rest, SubjectKind);
    } else {
      assert Pending(g) == g.gearBuf;
      FlushStep(g.segments, g.gearBuf, rest, GearKind);
    }
  }

  /** A SUBJECT value: a pending gear run is emitted and the value is buffered. */
  lemma SubjectStepMatchesRuns(g: Grouping, v: Resolved, rest: seq<Resolved>)
    requires WellGrouped(g) && KindOf(v) == SubjectKind
    ensures WellGrouped(StepOf(g, v))
    ensures StepOf(g, v).segments + RenderAll(Runs(Pending(StepOf(g, v)) + rest))
      == g.segments + RenderAll(Runs(Pending(g) + [v] + rest))
  {
    var h := StepOf(g, v);
    if g.gearBuf != [] {
      assert h == Grouping(g.segments + [Join(Texts(g.gearBuf), ", ")], [v], []);
      assert Pending(g) == g.gearBuf;
      ValueThenRest(g.gearBuf, v, rest);
      FlushStep(g.segments, g.gearBuf, [v] + rest, GearKind);
      assert Pending(h) + rest == [v] + rest;
    } else {
      assert h == g.(subjectBuf := g.subjectBuf + [v]);
      assert Pending(h) + rest == Pending(g) + [v] + rest;
    }
  }

  /** A gear value: a pending subject run is emitted and the value is buffered. */
  lemma GearStepMatchesRuns(g: Grouping, v: Resolved, rest: seq<Resolved>)
    requires WellGrouped(g) && KindOf(v) == GearKind
    ensures WellGrouped(StepOf(g, v))
    ensures StepOf(g, v).segments + RenderAll(Runs(Pending(StepOf(g, v)) + rest))
      == g.segments + RenderAll(Runs(Pending(g) + [v] + rest))
  {
    var h := StepOf(g, v);
    if g.subjectBuf != [] {
      assert h == Grouping(g.segments + [SubjectSentence(g.subjectBuf)], [], [v]);
      assert Pending(g) == g.subjectBuf;
      ValueThenRest(g.subjectBuf, v, rest);
      FlushStep(g.segments, g.subjectBuf, [v] + rest, SubjectKind);
      assert Pending(h) + rest == [v] + rest;
    } else {
      assert h == g.(gearBuf := g.gearBuf + [v]);
      assert Pending(h) + rest == Pending(g) + [v] + rest;
    }
  }

  /** Any other value: the pending run is emitted, then the value on its own. */
  lemma OtherStepMatchesRuns(g: Grouping, v: Resolved, rest: seq<Resolved>)
    requires WellGrouped(g) && KindOf(v) == OtherKind
    ensures WellGrouped(StepOf(g, v))
    ensures StepOf(g, v).segments + RenderAll(Runs(Pending(StepOf(g, v)) + rest))
      == g.segments + RenderAll(Runs(Pending(g) + [v] + rest))
  {
    var f := FlushGearOf(FlushSubjectOf(g));
    if Pending(g) != [] {
      ValueThenRest(Pending(g), v, rest);
      FlushMatchesRuns(g, [v] + rest);
    } else {
      assert Pending(g) + [v] + rest == [v] + rest;
    }
    OtherStep(f.segments, v, rest);
    assert Pending(StepOf(g, v)) + rest == rest;
  }

  /** The grouping loop followed by the final flushes emits one segment per run. */
  lemma {:induction false} StepAllMatchesRuns(g: Grouping, us: seq<Resolved>)
    requires WellGrouped(g)
    ensures FinishOf(StepAll(g, us)).segments == g.segments + RenderAll(Runs(Pending(g) + us))
    decreases |us|
  {
    if us == [] {
      if Pending(g) != [] {
        assert Pending(g) + [] == Pending(g);
        FlushMatchesRuns(g, []);
      } else {
        assert Pending(g) + us == [];
      }
    } else {
      var v := us[0];
      var rest := us[1..];
      assert Pending(g) + us == Pending(g) + [v] + rest;
      var kind := KindOf(v);
      if kind == SubjectKind {
        SubjectStepMatchesRuns(g, v, rest);
      } else if kind == GearKind {
        GearStepMatchesRuns(g, v, rest);
      } else {
        OtherStepMatchesRuns(g, v, rest);
      }
      StepAllMatchesRuns(StepOf(g, v), rest);
    }
  }

  /**
   * The grouping loop's state as the source keeps it: the segments emitted
   * so far and the two buffers the flush closures share.
   */
  class Assembler {
    var segments: seq<string>
    var subjectBuf: seq<Resolved>
    var gearBuf: seq<Resolved>

    function State(): Grouping
      reads this
    {
      Grouping(segments, subjectBuf, gearBuf)
    }

    constructor ()
      ensures State() == Grouping([], [], [])
    {
      segments := [];
      subjectBuf := [];
      gearBuf := [];
    }

    /** `flushSubject`: emit the SUBJECT buffer as one sentence, if it holds anything. */
    method FlushSubject()
      modifies this
      ensures State() == FlushSubjectOf(old(State()))
    {
      if |subjectBuf| > 0 {
        segments := segments + [SubjectSentence(subjectBuf)];
        subjectBuf := [];
      }
    }

    /** `flushGear`: emit the gear buffer joined by ", ", if it holds anything. */
    method FlushGear()
      modifies this
      ensures State() == FlushGearOf(old(State()))
    {
      if |gearBuf| > 0 {
        segments := segments + [Join(Texts(gearBuf), ", ")];
        gearBuf := [];
      }
    }

    /** One turn of the grouping loop for the value `v`. */
    method Push(v: Resolved)
      modifies this
      ensures State() == StepOf(old(State()), v)
    {
      if v.section == "SUBJECT" {
        FlushGear();
        subjectBuf := subjectBuf + [v];
      } else if v.section == "CINEMATOGRAPHY" && v.field in GearFields {
        FlushSubject();
        gearBuf := gearBuf + [v];
      } else {
        FlushSubject();
        FlushGear();
        segments := segments + [v.text];
      }
    }
  }

  /**
   * lib/prompt-builder.js lines 182-193: the grouping loop over the resolved
   * values and the final flushes; the segments are the runs of the values,
   * each rendered.
   */
  method Assemble(units: seq<Resolved>) returns (segments: seq<string>)
    ensures segments == Segments(units)
  {
    ghost var start := Grouping([], [], []);
    var a := new Assembler();
    for i := 0 to |units|
      invariant StepAll(a.State(), units[i..]) == StepAll(start, units)
    {
      assert units[i..][1..] == units[i + 1..];
      a.Push(units[i]);
    }
    a.FlushSubject();
    a.FlushGear();
    segments := a.segments;
    StepAllMatchesRuns(start, units);
    assert Pending(start) + units == units;
  }

  /**
   * The sentence form of a segment: the first character upper-cased, and a
   * full stop added unless it already ends with '.', '!' or '"'.
   */
  function FormatSegment(s: string): (r: string)
    ensures |r| == |s| || |r| == |s| + 1
    ensures r[..|s|] == Capitalise(s)
    ensures EndsWith(r, ".") || EndsWith(r, "!") || EndsWith(r, "\"")
    ensures !(EndsWith(s, ".") || EndsWith(s, "!") || EndsWith(s, "\"")) ==> r == Capitalise(s) + "."
  {
    var t := Capitalise(s);
    CapitaliseKeepsEnding(s, ".");
    CapitaliseKeepsEnding(s, "!");
    CapitaliseKeepsEnding(s, "\"");
    if !EndsWith(t, ".") && !EndsWith(t, "!") && !EndsWith(t, "\"") then
      assert (t + ".")[..|s|] == t;
      t + "."
    else t
  }

  /** Formatting a formatted segment changes nothing. */
  lemma FormatSegmentIdempotent(s: string)
    ensures FormatSegment(FormatSegment(s)) == FormatSegment(s)
  {
    var r := FormatSegment(s);
    var t := Capitalise(r);
    if r != [] {
      assert UpperAscii(UpperAscii(r[0])) == UpperAscii(r[0]);
      assert t == r;
    }
  }

  /** A segment that already ends a sentence only gains its capital letter. */
  lemma FormatSegmentKeepsEnding(s: string)
    requires EndsWith(s, ".") || EndsWith(s, "!") || EndsWith(s, "\"")
    ensures FormatSegment(s) == Capitalise(s)
  {
    var t := Capitalise(s);
    assert t[|t| - 1] == s[|s| - 1];
  }

  /** The formatted segments, in order. */
  function FormatAll(segments: seq<string>): (fs: seq<string>)
    ensures |fs| == |segments|
    ensures forall i | 0 <= i < |segments| :: fs[i] == FormatSegment(segments[i])
  {
    seq(|segments|, i requires 0 <= i < |segments| => FormatSegment(segments[i]))
  }

  /** An empty segment (from a field holding `[]`) becomes a lone ".". */
  lemma FormatEmptySegment()
    ensures FormatSegment("") == "."
  {
    assert !EndsWith(Capitalise(""), ".");
  }

  /** The prompt: the formatted segments joined by single spaces. */
  function FormatPrompt(segments: seq<string>): (r: string)
    ensures segments != [] ==> StartsWith(r, FormatSegment(segments[0]))
    ensures |segments| == 1 ==> r == FormatSegment(segments[0])
    ensures segments != [] ==> EndsWith(r, ".") || EndsWith(r, "!") || EndsWith(r, "\"")
  {
    var fs := FormatAll(segments);
    if fs != [] then
      JoinEndsWithLast(fs, " ");
      SentenceEndCarries(Join(fs, " "), fs[|fs| - 1]);
      Join(fs, " ")
    else Join(fs, " ")
  }

  /** A text ending with a finished sentence is itself finished. */
  lemma SentenceEndCarries(s: string, t: string)
    requires EndsWith(s, t)
    requires EndsWith(t, ".") || EndsWith(t, "!") || EndsWith(t, "\"")
    ensures EndsWith(s, ".") || EndsWith(s, "!") || EndsWith(s, "\"")
  {
    if EndsWith(t, ".") {
      EndsWithTransitive(s, t, ".");
    } else if EndsWith(t, "!") {
      EndsWithTransitive(s, t, "!");
    } else {
      EndsWithTransitive(s, t, "\"");
    }
  }

  /** Joining sentences that are never empty gives the empty string only for no sentences. */
  lemma {:induction false} JoinNonEmpty(xs: seq<string>, sep: string)
    requires forall i | 0 <= i < |xs| :: xs[i] != []
    ensures Join(xs, sep) == [] <==> xs == []
    decreases |xs|
  {
    if |xs| > 1 {
      JoinNonEmpty(xs[1..], sep);
    }
  }

  /** The prompt is empty exactly when there are no segments. */
  lemma FormatPromptEmpty(segments: seq<string>)
    ensures FormatPrompt(segments) == "" <==> segments == []
  {
    var fs := FormatAll(segments);
    forall i | 0 <= i < |fs| ensures fs[i] != [] {
      assert EndsWith(fs[i], ".") || EndsWith(fs[i], "!") || EndsWith(fs[i], "\"");
    }
    JoinNonEmpty(fs, " ");
  }

  /** A prompt of several segments is the first sentence, a space, and the prompt of the rest. */
  lemma FormatPromptCons(segments: seq<string>)
    requires |segments| >= 2
    ensures FormatPrompt(segments) == FormatSegment(segments[0]) + " " + FormatPrompt(segments[1..])
  {
    assert FormatAll(segments)[1..] == FormatAll(segments[1..]);
  }
}
