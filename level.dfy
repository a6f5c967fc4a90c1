/**
 * A circloO level (circloo_helper/level.py): the header settings and the
 * ordered object list whose positions are the objects' ids.
 */
module LevelFile {
  import opened Wrappers
  import opened Text
  import opened LevelObject

  /**
   * The ids after the renumbering loop `for k in range(from, len(ids))`
   * adds d to entry k, a negative k counting from the end: entry i gains d
   * once for k == i and once more for k == i - len(ids).
   */
  function Shift(ids: seq<int>, from: int, d: int): (r: seq<int>) {
    seq(|ids|, i requires 0 <= i < |ids| =>
      ids[i] + (if from <= i then d else 0) + (if from <= i - |ids| then d else 0))
  }

  /**
   * The ids after remove(line) on a list of objects with ids `ids`, for
   * -len(ids) <= line < len(ids): entry k = line mod len(ids) is dropped,
   * then the renumbering loop runs from `line`, unless it raises at once
   * (line == -len(ids)).
   */
  function RemovedIds(ids: seq<int>, line: int): (r: seq<int>)
    requires -|ids| <= line < |ids|
    ensures |r| == |ids| - 1
  {
    var k := if line < 0 then line + |ids| else line;
    var cut := ids[..k] + ids[k + 1..];
    if line == -|ids| then cut else Shift(cut, line, -1)
  }

  /** remove() at a line 0 <= line < n keeps a numbered level numbered. */
  lemma RemovedNumbering(n: nat, line: nat)
    requires line < n
    ensures RemovedIds(Numbering(n), line) == Numbering(n - 1)
  {
    RemoveNumbering(n, line);
  }

  /** Where list.insert(line, x) puts x in a list of n items: negative lines count from the end, clamped to the ends. */
  function InsertIndex(line: int, n: nat): (p: nat)
    ensures p <= n
    ensures 0 <= line <= n ==> p == line
    ensures line < 0 && line + n >= 0 ==> p == line + n
  {
    if line < 0 then (if line + n < 0 then 0 else line + n) else if line <= n then line else n
  }

  /** 0, 1, ..., n-1: the ids of a correctly numbered level of n objects. */
  function Numbering(n: nat): (r: seq<int>) {
    seq(n, i requires 0 <= i < n => i)
  }

  /**
   * The ids after insert(line, obj) on a list of objects with ids `ids`: the
   * new id `line` goes in where list.insert puts it, then the renumbering
   * loop runs from line + 1, unless it raises at once (line + 1 below
   * -len of the longer list).
   */
  function InsertedIds(ids: seq<int>, line: int): (r: seq<int>)
    ensures |r| == |ids| + 1
  {
    var p := InsertIndex(line, |ids|);
    var spliced := ids[..p] + [line] + ids[p..];
    if line + 1 < -(|ids| + 1) then spliced else Shift(spliced, line + 1, 1)
  }

  /** insert() at a line 0 <= line <= n keeps a numbered level numbered. */
  lemma InsertedNumbering(n: nat, line: int)
    requires 0 <= line <= n
    ensures InsertedIds(Numbering(n), line) == Numbering(n + 1)
  {
    InsertNumbering(n, line);
  }

  /** insert(-1, obj) on a level numbered 0, 1, 2 gives the ids 1, 2, 0, 3: not a numbering. */
  lemma InsertNegativeMisnumbers()
    ensures InsertedIds(Numbering(3), -1) == [1, 2, 0, 3] != Numbering(4)
  {
    assert Numbering(3) == [0, 1, 2];
    assert Numbering(4)[0] == 0;
  }

  /** remove(-1) on a level numbered 0, 1, 2 gives the ids -1, -1: not a numbering. */
  lemma RemoveNegativeMisnumbers()
    ensures RemovedIds(Numbering(3), -1) == [-1, -1] != Numbering(2)
  {
    assert Numbering(3) == [0, 1, 2];
    assert Numbering(2)[0] == 0;
  }

  /**
   * insert() with the index list.insert uses, p, as both the new id and the
   * start of the renumbering: the ids insert() evidently means to produce.
   */
  function FixedInsertedIds(ids: seq<int>, line: int): (r: seq<int>)
    ensures |r| == |ids| + 1
  {
    var p := InsertIndex(line, |ids|);
    Shift(ids[..p] + [p] + ids[p..], p + 1, 1)
  }

  /** With the index list.insert uses, every line keeps a numbered level numbered. */
  lemma FixedInsertKeepsNumbering(n: nat, line: int)
    ensures FixedInsertedIds(Numbering(n), line) == Numbering(n + 1)
  {
    InsertNumbering(n, InsertIndex(line, n));
  }

  /** remove() renumbering from the index pop uses, k, rather than from line. */
  function FixedRemovedIds(ids: seq<int>, line: int): (r: seq<int>)
    requires -|ids| <= line < |ids|
    ensures |r| == |ids| - 1
  {
    var k := if line < 0 then line + |ids| else line;
    Shift(ids[..k] + ids[k + 1..], k, -1)
  }

  /** Renumbering from the popped index keeps a numbered level numbered for every line pop accepts. */
  lemma FixedRemoveKeepsNumbering(n: nat, line: int)
    requires line + n >= 0 && line < n
    ensures FixedRemovedIds(Numbering(n), line) == Numbering(n - 1)
  {
    RemoveNumbering(n, if line < 0 then line + n else line);
  }

  /** Inserting id p at index p of a numbering and shifting the rest up gives the next numbering. */
  lemma InsertNumbering(n: nat, p: nat)
    requires p <= n
    ensures Shift(Numbering(n)[..p] + [p] + Numbering(n)[p..], p + 1, 1) == Numbering(n + 1)
  {
    var s := Numbering(n)[..p] + [p] + Numbering(n)[p..];
    var t := Shift(s, p + 1, 1);
    forall i | 0 <= i < n + 1 ensures t[i] == i {
      if i < p {
        assert s[i] == Numbering(n)[i];
      } else if i > p {
        assert s[i] == Numbering(n)[i - 1];
      }
    }
  }

  /** Dropping index p of a numbering and shifting the rest down gives the previous numbering. */
  lemma RemoveNumbering(n: nat, p: nat)
    requires p < n
    ensures Shift(Numbering(n)[..p] + Numbering(n)[p + 1..], p, -1) == Numbering(n - 1)
  {
    var s := Numbering(n)[..p] + Numbering(n)[p + 1..];
    var t := Shift(s, p, -1);
    forall i | 0 <= i < n - 1 ensures t[i] == i {
      if i < p {
        assert s[i] == Numbering(n)[i];
      } else {
        assert s[i] == Numbering(n)[i + 1];
      }
    }
  }

  /** The fixed lines every header starts with, then the three setting lines. */
  function BaseHeaderLines(segments: int, startFull: bool, color: int, gravScale: int, gravDir: int): (r: seq<string>) {
    ["/",
     "/ circloO level",
     "/ Made with circloO Level Editor",
     "totalCircles " + IntToString(segments) + " " + (if startFull then "1" else "0"),
     "/ EDITOR_TOOL 1 select",
     "/ EDITOR_VIEW 1500 1500 1",
     "/ EDT 3303",
     "/ _SAVE_TIME_1721799879000_END",
     "levelscriptVersion 8",
     "COLORS " + IntToString(color),
     "grav " + IntToString(gravScale) + " " + IntToString(gravDir)]
  }

  /** The lines of the header: the fixed block, then recommend_sfx and music when set. */
  function HeaderLinesOf(segments: int, startFull: bool, color: int, gravScale: int, gravDir: int, recSfx: bool, music: (int, int)): (r: seq<string>) {
    BaseHeaderLines(segments, startFull, color, gravScale, gravDir)
    + (if recSfx then ["recommend_sfx"] else [])
    + (if music.0 != 0 then ["music " + IntToString(music.0) + " " + IntToString(music.1)] else [])
  }

  /** A line whose first character is neither 'r' nor 'm' is neither optional header line. */
  lemma NotOptional(s: string)
    requires |s| > 0 && s[0] != 'r' && s[0] != 'm'
    ensures s != "recommend_sfx" && !StartsWith(s, "music ")
  {
    assert "recommend_sfx"[0] == 'r';
  }

  /** No fixed header line is `recommend_sfx` or starts with `music `. */
  lemma BaseNotOptional(segments: int, startFull: bool, color: int, gravScale: int, gravDir: int)
    ensures var base := BaseHeaderLines(segments, startFull, color, gravScale, gravDir);
      forall i :: 0 <= i < |base| ==> base[i] != "recommend_sfx" && !StartsWith(base[i], "music ")
  {
    var base := BaseHeaderLines(segments, startFull, color, gravScale, gravDir);
    BaseHeads(segments, startFull, color, gravScale, gravDir);
    NoneOptional(base);
  }

  /** Every fixed header line starts with a character other than 'r' and 'm'. */
  lemma BaseHeads(segments: int, startFull: bool, color: int, gravScale: int, gravDir: int)
    ensures var base := BaseHeaderLines(segments, startFull, color, gravScale, gravDir);
      forall i :: 0 <= i < |base| ==> |base[i]| > 0 && base[i][0] != 'r' && base[i][0] != 'm'
  {
    var base := BaseHeaderLines(segments, startFull, color, gravScale, gravDir);
    forall i | 0 <= i < |base| ensures |base[i]| > 0 && base[i][0] != 'r' && base[i][0] != 'm' {
      if i < 3 {
        assert base[i][0] == '/';
      } else if i == 3 {
        assert base[i][0] == 't';
      } else if i < 8 {
        assert base[i][0] == '/';
      } else if i == 8 {
        assert base[i][0] == 'l';
      } else if i == 9 {
        assert base[i][0] == 'C';
      } else {
        assert base[i][0] == 'g';
      }
    }
  }

  lemma NoneOptional(lines: seq<string>)
    requires forall i :: 0 <= i < |lines| ==> |lines[i]| > 0 && lines[i][0] != 'r' && lines[i][0] != 'm'
    ensures forall i :: 0 <= i < |lines| ==> lines[i] != "recommend_sfx" && !StartsWith(lines[i], "music ")
  {
    forall i | 0 <= i < |lines| ensures lines[i] != "recommend_sfx" && !StartsWith(lines[i], "music ") {
      NotOptional(lines[i]);
    }
  }

  /** The music line starts with `music ` and is not `recommend_sfx`. */
  lemma MusicLine(a: int, b: int)
    ensures var m := "music " + IntToString(a) + " " + IntToString(b);
      StartsWith(m, "music ") && m != "recommend_sfx" && !StartsWith("recommend_sfx", "music ")
  {
    var m := "music " + IntToString(a) + " " + IntToString(b);
    assert m[..6] == "music ";
    assert m[1] == 'u' != "recommend_sfx"[1];
    assert "recommend_sfx"[0] != 'm';
  }

  /**
   * The header holds the eleven fixed lines, then `recommend_sfx` exactly
   * when rec_sfx is set and a `music` line exactly when the first music
   * number is not 0.
   */
  lemma HeaderOptionalLines(segments: int, startFull: bool, color: int, gravScale: int, gravDir: int, recSfx: bool, music: (int, int))
    ensures var lines := HeaderLinesOf(segments, startFull, color, gravScale, gravDir, recSfx, music);
      |lines| == 11 + (if recSfx then 1 else 0) + (if music.0 != 0 then 1 else 0) &&
      lines[..11] == BaseHeaderLines(segments, startFull, color, gravScale, gravDir) &&
      (recSfx <==> "recommend_sfx" in lines) &&
      (music.0 != 0 <==> exists i :: 0 <= i < |lines| && StartsWith(lines[i], "music "))
  {
    var base := BaseHeaderLines(segments, startFull, color, gravScale, gravDir);
    var musicLine := "music " + IntToString(music.0) + " " + IntToString(music.1);
    var sfx := if recSfx then ["recommend_sfx"] else [];
    var mus := if music.0 != 0 then [musicLine] else [];
    var lines := HeaderLinesOf(segments, startFull, color, gravScale, gravDir, recSfx, music);
    AppendAssoc(base, sfx, mus);
    TakeAppend(base, sfx + mus);
    BaseNotOptional(segments, startFull, color, gravScale, gravDir);
    MusicLine(music.0, music.1);
    forall i | 0 <= i < |lines|
      ensures (lines[i] == "recommend_sfx" <==> recSfx && i == 11)
      ensures (StartsWith(lines[i], "music ") <==> music.0 != 0 && i == |lines| - 1)
    {
      if i < 11 {
        assert lines[i] == base[i];
      } else if recSfx && i == 11 {
        assert lines[i] == "recommend_sfx";
      } else {
        assert lines[i] == musicLine;
      }
    }
    if recSfx {
      assert lines[11] == "recommend_sfx";
    }
    if music.0 != 0 {
      assert StartsWith(lines[|lines| - 1], "music ");
    }
  }

  lemma FixedLinesNoBreak()
    ensures NoLineBreak("/") && NoLineBreak("/ circloO level") && NoLineBreak("/ Made with circloO Level Editor")
  {
    PrintableNoLineBreak("/");
    PrintableNoLineBreak("/ circloO level");
    PrintableNoLineBreak("/ Made with circloO Level Editor");
  }

  lemma EditorLinesNoBreak()
    ensures NoLineBreak("/ EDITOR_TOOL 1 select") && NoLineBreak("/ EDITOR_VIEW 1500 1500 1") && NoLineBreak("/ EDT 3303")
    ensures NoLineBreak("/ _SAVE_TIME_1721799879000_END") && NoLineBreak("levelscriptVersion 8")
  {
    PrintableNoLineBreak("/ EDITOR_TOOL 1 select");
    PrintableNoLineBreak("/ EDITOR_VIEW 1500 1500 1");
    PrintableNoLineBreak("/ EDT 3303");
    PrintableNoLineBreak("/ _SAVE_TIME_1721799879000_END");
    PrintableNoLineBreak("levelscriptVersion 8");
  }

  lemma PiecesNoBreak()
    ensures NoLineBreak("totalCircles ") && NoLineBreak(" ") && NoLineBreak("0") && NoLineBreak("1")
    ensures NoLineBreak("COLORS ") && NoLineBreak("grav ") && NoLineBreak("music ") && NoLineBreak("recommend_sfx")
  {
    PrintableNoLineBreak("totalCircles ");
    PrintableNoLineBreak(" ");
    PrintableNoLineBreak("0");
    PrintableNoLineBreak("1");
    PrintableNoLineBreak("COLORS ");
    PrintableNoLineBreak("grav ");
    PrintableNoLineBreak("music ");
    PrintableNoLineBreak("recommend_sfx");
  }

  lemma BaseHeaderNoBreak(segments: int, startFull: bool, color: int, gravScale: int, gravDir: int)
    ensures var base := BaseHeaderLines(segments, startFull, color, gravScale, gravDir);
      forall i :: 0 <= i < |base| ==> NoLineBreak(base[i])
  {
    var base := BaseHeaderLines(segments, startFull, color, gravScale, gravDir);
    FixedLinesNoBreak();
    EditorLinesNoBreak();
    PiecesNoBreak();
    IntNoLineBreak(segments);
    IntNoLineBreak(color);
    IntNoLineBreak(gravScale);
    IntNoLineBreak(gravDir);
    var full := if startFull then "1" else "0";
    ConcatNoLineBreak("totalCircles ", IntToString(segments));
    ConcatNoLineBreak("totalCircles " + IntToString(segments), " ");
    ConcatNoLineBreak("totalCircles " + IntToString(segments) + " ", full);
    ConcatNoLineBreak("COLORS ", IntToString(color));
    ConcatNoLineBreak("grav ", IntToString(gravScale));
    ConcatNoLineBreak("grav " + IntToString(gravScale), " ");
    ConcatNoLineBreak("grav " + IntToString(gravScale) + " ", IntToString(gravDir));
    forall i | 0 <= i < |base| ensures NoLineBreak(base[i]) {
    }
  }

  /** The optional header lines hold no line break either. */
  lemma ExtraNoBreak(recSfx: bool, music: (int, int))
    ensures var extra := (if recSfx then ["recommend_sfx"] else [])
      + (if music.0 != 0 then ["music " + IntToString(music.0) + " " + IntToString(music.1)] else []);
      forall i :: 0 <= i < |extra| ==> NoLineBreak(extra[i])
  {
    IntNoLineBreak(music.0);
    IntNoLineBreak(music.1);
    PiecesNoBreak();
    ConcatNoLineBreak("music ", IntToString(music.0));
    ConcatNoLineBreak("music " + IntToString(music.0), " ");
    ConcatNoLineBreak("music " + IntToString(music.0) + " ", IntToString(music.1));
  }

  /** Splitting make_header() at its line breaks gives the header lines back. */
  lemma HeaderSplitsIntoLines(segments: int, startFull: bool, color: int, gravScale: int, gravDir: int, recSfx: bool, music: (int, int))
    ensures var lines := HeaderLinesOf(segments, startFull, color, gravScale, gravDir, recSfx, music);
      SplitLines(Join("\n", lines)) == lines
  {
    var base := BaseHeaderLines(segments, startFull, color, gravScale, gravDir);
    var sfx := if recSfx then ["recommend_sfx"] else [];
    var mus := if music.0 != 0 then ["music " + IntToString(music.0) + " " + IntToString(music.1)] else [];
    var lines := HeaderLinesOf(segments, startFull, color, gravScale, gravDir, recSfx, music);
    AppendAssoc(base, sfx, mus);
    BaseHeaderNoBreak(segments, startFull, color, gravScale, gravDir);
    ExtraNoBreak(recSfx, music);
    AllNoLineBreakAppend(base, sfx + mus);
    if music.0 != 0 {
      assert lines[|lines| - 1][0] == 'm';
    } else if recSfx {
      assert lines[|lines| - 1] == "recommend_sfx";
    } else {
      assert lines[|lines| - 1] == base[10];
      assert base[10][0] == 'g';
    }
    SplitLinesJoin(lines);
  }

  /** The objects the connection lists of os refer to. */
  function TargetsOf(os: seq<Object>): (r: set<Object>)
    reads os
  {
    set o, e | o in os && e in o.connections && e.Obj? :: e.target
  }

  lemma TargetsOfLast(os: seq<Object>)
    requires os != []
    ensures os[|os| - 1].Targets() <= TargetsOf(os) && TargetsOf(os[..|os| - 1]) <= TargetsOf(os)
  {
    var n := |os| - 1;
    assert forall o :: o in os[..n] ==> o in os;
    assert os[n] in os;
  }

  /** to_str(enumeration=True) of each object in turn; the first failure is raised. */
  function Texts(os: seq<Object>): (r: Result<seq<string>>)
    reads os, TargetsOf(os)
    decreases |os|
  {
    if os == [] then Ok([])
    else
      var n := |os| - 1;
      TargetsOfLast(os);
      var ts :- Texts(os[..n]);
      var t :- os[n].ToStr(true);
      Ok(ts + [t])
  }

  class Level {
    var objs: seq<Object>
    var segments: int
    var gravScale: int
    var gravDir: int
    var startFull: bool
    var color: int
    var music: (int, int)
    var recSfx: bool

    /** No object appears twice; the renumbering loops rely on it. */
    ghost predicate Distinct()
      reads this
    {
      forall i, j :: 0 <= i < j < |objs| ==> objs[i] != objs[j]
    }

    /** The ids of the objects, in list order. */
    function Ids(): (r: seq<int>)
      reads this, objs
    {
      IdsOf(objs)
    }

    /** The level's invariant: objs[i].id == i. */
    predicate Numbered()
      reads this, objs
    {
      Ids() == Numbering(|objs|)
    }

    /** Level(segments, grav_scale, grav_dir, start_full, color, music, rec_sfx): an empty level. */
    constructor (segments: int, gravScale: int, gravDir: int, startFull: bool, color: int, music: (int, int), recSfx: bool)
      ensures objs == [] && Distinct() && Numbered()
      ensures this.segments == segments && this.gravScale == gravScale && this.gravDir == gravDir
      ensures this.startFull == startFull && this.color == color && this.music == music && this.recSfx == recSfx
    {
      objs := [];
      this.segments := segments;
      this.gravScale := gravScale;
      this.gravDir := gravDir;
      this.startFull := startFull;
      this.color := color;
      this.music := music;
      this.recSfx := recSfx;
    }

    /** The object `c` is a fresh copy of `o`: same lists and position count, a plain Object. */
    ghost predicate CopyOf(c: Object, o: Object)
      reads c, o
    {
      c.attributes == o.attributes && c.modifiers == o.modifiers && c.connections == o.connections &&
      c.numberOfPositions == o.numberOfPositions && c.kind == Plain
    }

    /** add(obj): appends a copy of obj numbered with the old length; obj itself is left alone. */
    method Add(obj: Object)
      modifies this`objs
      ensures |objs| == old(|objs|) + 1 && objs[..old(|objs|)] == old(objs)
      ensures fresh(objs[old(|objs|)]) && CopyOf(objs[old(|objs|)], obj)
      ensures Ids() == old(Ids()) + [old(|objs|)]
      ensures old(Distinct()) ==> Distinct()
      ensures old(Numbered()) ==> Numbered()
      ensures unchanged(obj)
    {
      ghost var before := Ids();
      var c := obj.Copy();
      c.SetId(GetLen());
      assert Ids() == before;
      objs := objs + [c];
      assert Ids() == before + [c.id];
    }

    /**
     * insert(line, obj): a copy of obj numbered `line` goes in where
     * list.insert puts it; then the loop over range(line + 1, len) raises the
     * id of the object at each index by one, negative indices counting from
     * the end, and raises IndexError at the first index below -len.
     */
    method Insert(line: int, obj: Object) returns (r: Result<()>, ghost c: Object)
      requires Distinct()
      modifies this`objs, objs`id
      ensures var p := InsertIndex(line, old(|objs|));
        objs == old(objs)[..p] + [c] + old(objs)[p..]
      ensures fresh(c) && CopyOf(c, obj)
      ensures Ids() == InsertedIds(old(Ids()), line)
      ensures r.Ok? <==> line >= -old(|objs|) - 2
      ensures r.Err? ==> r.error == IndexError
      ensures Distinct()
      ensures old(Numbered()) && 0 <= line <= old(|objs|) ==> Numbered()
    {
      var copy := obj.Copy();
      copy.SetId(line);
      c := copy;
      r := InsertAt(line, copy, objs, Ids());
      if old(Numbered()) && 0 <= line <= old(|objs|) {
        InsertedNumbering(old(|objs|), line);
      }
    }

    /** insert(line, obj) once the copy c exists: the list insertion, then the renumbering loop. */
    method InsertAt(line: int, c: Object, ghost os: seq<Object>, ghost ids: seq<int>) returns (r: Result<()>)
      requires Distinct() && c !in objs && c.id == line && os == objs && ids == Ids()
      modifies this`objs, objs`id, c`id
      ensures var p := InsertIndex(line, |os|);
        objs == os[..p] + [c] + os[p..]
      ensures Ids() == InsertedIds(ids, line)
      ensures r.Ok? <==> line >= -|os| - 2
      ensures r.Err? ==> r.error == IndexError
      ensures Distinct()
    {
      var p := InsertIndex(line, |objs|);
      ghost var spliced := ids[..p] + [line] + ids[p..];
      PutAt(p, c);
      assert Ids() == spliced;
      if line + 1 < -|objs| {
        assert InsertedIds(ids, line) == spliced;
        r := Err(IndexError);
      } else {
        assert InsertedIds(ids, line) == Shift(spliced, line + 1, 1);
        ShiftIds(line + 1, 1);
        r := Ok(());
      }
    }

    /** The list insertion of insert(): c goes in at index p and nothing is renumbered. */
    method PutAt(p: nat, c: Object)
      requires Distinct() && p <= |objs| && c !in objs
      modifies this`objs
      ensures objs == old(objs)[..p] + [c] + old(objs)[p..]
      ensures Ids() == old(Ids())[..p] + [c.id] + old(Ids())[p..]
      ensures Distinct()
    {
      SpliceDistinct(objs, c, p);
      SpliceIds(objs, c, p);
      objs := objs[..p] + [c] + objs[p..];
    }

    /**
     * The renumbering loop `for k in range(from, len(objs)):
     * objs[k].increment_id(d)`, a negative k counting from the end. The loop
     * raises IndexError at its first k when from < -len(objs); its callers
     * raise that before calling.
     */
    method ShiftIds(from: int, d: int)
      requires Distinct() && from >= -|objs|
      modifies objs`id
      ensures Ids() == Shift(old(Ids()), from, d)
      ensures objs == old(objs)
    {
      var n := |objs|;
      ghost var before := Ids();
      ghost var want := Shift(before, from, d);
      var k := from;
      while k < n
        invariant from <= k && (k <= n || k == from)
        invariant forall i :: 0 <= i < n ==>
          objs[i].id == before[i] + (if from <= i < k then d else 0) + (if from <= i - n < k then d else 0)
      {
        var at := if k < 0 then k + n else k;
        assert forall i :: 0 <= i < n && i != at ==> objs[i] != objs[at];
        objs[at].IncrementId(d);
        k := k + 1;
      }
      forall i | 0 <= i < n ensures Ids()[i] == want[i] {
      }
    }

    /**
     * replace(line, obj): the object at objs[line] (negative lines count from
     * the end) is returned and a copy of obj numbered `line` takes its place.
     */
    method Replace(line: int, obj: Object) returns (r: Result<Object>)
      modifies this`objs
      ensures r.Ok? <==> -old(|objs|) <= line < old(|objs|)
      ensures r.Err? ==> r.error == IndexError && objs == old(objs)
      ensures r.Ok? ==>
        var k := if line < 0 then line + old(|objs|) else line;
        r.value == old(objs)[k] && |objs| == old(|objs|) &&
        (forall i :: 0 <= i < |objs| && i != k ==> objs[i] == old(objs)[i]) &&
        fresh(objs[k]) && CopyOf(objs[k], obj) && objs[k].id == line
      ensures old(Distinct()) ==> Distinct()
      ensures old(Numbered()) && line >= 0 ==> Numbered()
    {
      var c := obj.Copy();
      c.SetId(line);
      r := ObjectAt(line);
      if r.Ok? {
        var k := if line < 0 then line + |objs| else line;
        objs := objs[k := c];
        assert forall i :: 0 <= i < |objs| && i != k ==> objs[i] == old(objs)[i];
      }
    }

    /**
     * remove(line): pops objs[line] (IndexError when there is no such
     * object), then the loop over range(line, len) lowers the id of the
     * object at each index by one, negative indices counting from the end;
     * when line is -len before the pop, that loop raises IndexError at once.
     */
    method Remove(line: int) returns (r: Result<Object>)
      requires Distinct()
      modifies this`objs, objs`id
      ensures var n := old(|objs|);
        r.Ok? <==> -n < line < n
      ensures var n := old(|objs|);
        !(-n <= line < n) ==> r == Err(IndexError) && objs == old(objs) && Ids() == old(Ids())
      ensures var n := old(|objs|);
        var k := if line < 0 then line + n else line;
        -n <= line < n ==>
          objs == old(objs)[..k] + old(objs)[k + 1..] && Ids() == RemovedIds(old(Ids()), line) &&
          r == (if line == -n then Err(IndexError) else Ok(old(objs)[k]))
      ensures r.Ok? ==> r.value.id == old(r.value.id)
      ensures Distinct()
      ensures old(Numbered()) && r.Ok? && line >= 0 ==> Numbered()
    {
      if -|objs| <= line < |objs| {
        r := RemoveAt(line, objs, Ids());
        if old(Numbered()) && line >= 0 {
          RemovedNumbering(old(|objs|), line);
        }
      } else {
        r := Err(IndexError);
      }
    }

    /** remove(line) for a line that names an object: the pop, then the renumbering loop. */
    method RemoveAt(line: int, ghost os: seq<Object>, ghost ids: seq<int>) returns (r: Result<Object>)
      requires Distinct() && -|objs| <= line < |objs| && os == objs && ids == Ids()
      modifies this`objs, objs`id
      ensures var k := if line < 0 then line + |os| else line;
        objs == os[..k] + os[k + 1..] && Ids() == RemovedIds(ids, line) &&
        r == (if line == -|os| then Err(IndexError) else Ok(os[k]))
      ensures r.Ok? ==> r.value.id == ids[if line < 0 then line + |os| else line]
      ensures Distinct()
    {
      var n := |objs|;
      var k := if line < 0 then line + n else line;
      ghost var cut := ids[..k] + ids[k + 1..];
      var removed := PopAt(k);
      assert Ids() == cut;
      if line < -|objs| {
        assert RemovedIds(ids, line) == cut;
        r := Err(IndexError);
      } else {
        assert RemovedIds(ids, line) == Shift(cut, line, -1);
        ShiftIds(line, -1);
        r := Ok(removed);
      }
    }

    /** The list pop of remove(): objs[k] leaves the list and nothing is renumbered. */
    method PopAt(k: nat) returns (removed: Object)
      requires Distinct() && k < |objs|
      modifies this`objs
      ensures removed == old(objs)[k] && removed !in objs
      ensures objs == old(objs)[..k] + old(objs)[k + 1..]
      ensures Ids() == old(Ids())[..k] + old(Ids())[k + 1..]
      ensures Distinct()
    {
      removed := objs[k];
      CutIds(objs, k);
      CutDistinct(objs, k);
      objs := objs[..k] + objs[k + 1..];
    }

    /** object_at(line): objs[line], negative lines counting from the end. */
    function ObjectAt(line: int): (r: Result<Object>)
      reads this
      ensures r.Ok? <==> -|objs| <= line < |objs|
      ensures r.Ok? ==> r.value == objs[if line < 0 then line + |objs| else line]
      ensures r.Err? ==> r.error == IndexError
    {
      At(objs, line)
    }

    /** get_len() */
    function GetLen(): (n: nat)
      reads this
      ensures n == |objs|
    {
      |objs|
    }

    function HeaderLines(): (r: seq<string>)
      reads this
    {
      HeaderLinesOf(segments, startFull, color, gravScale, gravDir, recSfx, music)
    }

    /** make_header(): the header lines joined by newlines, with no newline at the end. */
    function MakeHeader(): (r: string)
      reads this
      ensures r == Join("\n", HeaderLines())
    {
      var base := BaseHeaderLines(segments, startFull, color, gravScale, gravDir);
      var txt := Join("\n", base);
      var txt' := if recSfx then txt + "\nrecommend_sfx" else txt;
      var musicLine := "music " + IntToString(music.0) + " " + IntToString(music.1);
      var txt'' := if music.0 != 0 then txt' + "\n" + musicLine else txt';
      HeaderJoin(base, recSfx, music.0 != 0, musicLine);
      txt''
    }

    /**
     * to_str(): the header, then each object's to_str(enumeration=True), all
     * joined by newlines; an object whose connections cannot be written raises TypeError.
     */
    method ToStr() returns (r: Result<string>)
      ensures Texts(objs).Err? ==> r == Err(TypeError)
      ensures Texts(objs).Ok? ==> r == Ok(Join("\n", [MakeHeader()] + Texts(objs).value))
    {
      var header := MakeHeader();
      var text := [header];
      var i := 0;
      assert objs[..0] == [] && text[1..] == [];
      while i < |objs|
        invariant 0 <= i <= |objs| && |text| == i + 1 && text[0] == header
        invariant Texts(objs[..i]) == Ok(text[1..])
      {
        var s := objs[i].ToStr(true);
        if s.Err? {
          TextsFail(objs, i);
          return Err(TypeError);
        }
        TextsSnoc(objs, i);
        TailSnoc(text, s.value);
        text := text + [s.value];
        i := i + 1;
      }
      assert objs[..i] == objs;
      HeadTail(text);
      r := Ok(Join("\n", text));
    }
  }

  /** Putting a new object into a list without repeats keeps it without repeats. */
  lemma SpliceDistinct(a: seq<Object>, x: Object, p: nat)
    requires p <= |a| && x !in a
    requires forall i, j :: 0 <= i < j < |a| ==> a[i] != a[j]
    ensures var s := a[..p] + [x] + a[p..];
      forall i, j :: 0 <= i < j < |s| ==> s[i] != s[j]
  {
    var s := a[..p] + [x] + a[p..];
    forall i, j | 0 <= i < j < |s| ensures s[i] != s[j] {
      var ai := if i < p then i else i - 1;
      var aj := if j < p then j else j - 1;
      assert i != p ==> s[i] == a[ai];
      assert j != p ==> s[j] == a[aj];
    }
  }

  /** The ids of a list of objects, in order. */
  function IdsOf(os: seq<Object>): (r: seq<int>)
    reads os
    ensures |r| == |os| && forall i :: 0 <= i < |os| ==> r[i] == os[i].id
  {
    seq(|os|, i reads os requires 0 <= i < |os| => os[i].id)
  }

  lemma SpliceIds(a: seq<Object>, x: Object, p: nat)
    requires p <= |a|
    ensures IdsOf(a[..p] + [x] + a[p..]) == IdsOf(a)[..p] + [x.id] + IdsOf(a)[p..]
  {
    var s := a[..p] + [x] + a[p..];
    var t := IdsOf(a)[..p] + [x.id] + IdsOf(a)[p..];
    forall i | 0 <= i < |s| ensures IdsOf(s)[i] == t[i] {
      if i < p {
        assert s[i] == a[i];
      } else if i > p {
        assert s[i] == a[i - 1];
      }
    }
  }

  lemma CutIds(a: seq<Object>, k: nat)
    requires k < |a|
    ensures IdsOf(a[..k] + a[k + 1..]) == IdsOf(a)[..k] + IdsOf(a)[k + 1..]
  {
    var s := a[..k] + a[k + 1..];
    var t := IdsOf(a)[..k] + IdsOf(a)[k + 1..];
    forall i | 0 <= i < |s| ensures IdsOf(s)[i] == t[i] {
      if i < k {
        assert s[i] == a[i];
      } else {
        assert s[i] == a[i + 1];
      }
    }
  }

  /** Taking one object out of a list without repeats leaves a list without repeats that lacks it. */
  lemma CutDistinct(a: seq<Object>, k: nat)
    requires k < |a|
    requires forall i, j :: 0 <= i < j < |a| ==> a[i] != a[j]
    ensures var s := a[..k] + a[k + 1..];
      a[k] !in s && forall i, j :: 0 <= i < j < |s| ==> s[i] != s[j]
  {
    var s := a[..k] + a[k + 1..];
    forall i | 0 <= i < |s| ensures s[i] != a[k] {
      if i < k {
        assert s[i] == a[i];
      } else {
        assert s[i] == a[i + 1];
      }
    }
    forall i, j | 0 <= i < j < |s| ensures s[i] != s[j] {
      var ai := if i < k then i else i + 1;
      var aj := if j < k then j else j + 1;
      assert s[i] == a[ai] && s[j] == a[aj];
    }
  }

  /** One object that cannot be written makes the whole level fail. */
  lemma {:induction false} TextsFail(os: seq<Object>, k: nat)
    requires k < |os| && os[k].ToStr(true).Err?
    ensures Texts(os).Err?
    decreases |os|
  {
    var n := |os| - 1;
    if k < n {
      assert os[..n][k] == os[k];
      TextsFail(os[..n], k);
    }
  }

  /** Writing every object succeeds exactly when each one does, and gives their texts in order. */
  lemma {:induction false} TextsOk(os: seq<Object>)
    ensures Texts(os).Ok? <==> forall i :: 0 <= i < |os| ==> os[i].ToStr(true).Ok?
    decreases |os|
  {
    if os != [] {
      var n := |os| - 1;
      var pre := os[..n];
      TextsOk(pre);
      assert forall i :: 0 <= i < n ==> pre[i] == os[i];
    }
  }

  /** The texts come out in list order, one per object. */
  lemma {:induction false} TextsValues(os: seq<Object>)
    requires Texts(os).Ok?
    ensures |Texts(os).value| == |os| && forall i :: 0 <= i < |os| ==> os[i].ToStr(true) == Ok(Texts(os).value[i])
    decreases |os|
  {
    if os != [] {
      var n := |os| - 1;
      var pre := os[..n];
      var t := os[n].ToStr(true);
      assert Texts(pre).Ok? && t.Ok? && Texts(os).value == Texts(pre).value + [t.value];
      TextsValues(pre);
      assert forall i :: 0 <= i < n ==> pre[i] == os[i];
    }
  }

  /**
   * In a level whose objects are numbered by position, the text of object i
   * is its lines with the ids its endpoints hold now, ending in the footer `< i`.
   */
  lemma FootersAreIndices(os: seq<Object>)
    requires IdsOf(os) == Numbering(|os|) && Texts(os).Ok?
    ensures |Texts(os).value| == |os|
    ensures forall i :: 0 <= i < |os| ==> os[i].EndpointIds().Ok?
    ensures forall i :: 0 <= i < |os| ==>
      var lines := SerializedLines(os[i].attributes, os[i].modifiers, os[i].EndpointIds().value, Some(i));
      Texts(os).value[i] == Join("\n", lines) && lines[|lines| - 1] == "< " + IntToString(i)
  {
    TextsValues(os);
    forall i | 0 <= i < |os| ensures os[i].id == i {
      assert IdsOf(os)[i] == Numbering(|os|)[i];
    }
  }

  /** Writing one more object appends its text. */
  lemma TextsSnoc(os: seq<Object>, k: nat)
    requires k < |os| && Texts(os[..k]).Ok? && os[k].ToStr(true).Ok?
    ensures Texts(os[..k + 1]) == Ok(Texts(os[..k]).value + [os[k].ToStr(true).value])
  {
    assert os[..k + 1][..k] == os[..k];
  }

  lemma HeaderJoin(base: seq<string>, sfx: bool, hasMusic: bool, musicLine: string)
    requires base != []
    ensures var txt := Join("\n", base);
      var txt' := if sfx then txt + "\nrecommend_sfx" else txt;
      (if hasMusic then txt' + "\n" + musicLine else txt') ==
        Join("\n", base + (if sfx then ["recommend_sfx"] else []) + (if hasMusic then [musicLine] else []))
  {
    var txt := Join("\n", base);
    var txt' := if sfx then txt + "\nrecommend_sfx" else txt;
    var withSfx := base + (if sfx then ["recommend_sfx"] else []);
    if sfx {
      JoinAppend("\n", base, "recommend_sfx");
      assert txt + "\nrecommend_sfx" == txt + "\n" + "recommend_sfx";
    } else {
      AppendEmpty(base);
    }
    assert txt' == Join("\n", withSfx);
    if hasMusic {
      JoinAppend("\n", withSfx, musicLine);
    } else {
      AppendEmpty(withSfx);
    }
  }
}
