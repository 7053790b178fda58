/** The Python library helpers the POSIX resolver applies to strings, as
    far as the resolver depends on them: `str.split`, `str.strip`,
    `os.path.isabs`, `os.path.expanduser` for the current user,
    `os.path.normpath` of an absolute path, and the parsing of a string
    into `pathlib.PurePosixPath(...).parts`. */
module PosixPath {
  import opened Base

  /** The inverse of `Split`: the pieces with `sep` between them. */
  function Join(pieces: seq<string>, sep: char): string
    requires |pieces| >= 1
  {
    if |pieces| == 1 then pieces[0]
    else Join(pieces[..|pieces| - 1], sep) + [sep] + pieces[|pieces| - 1]
  }

  /** `s.split(sep)`: at least one piece. Each character either ends the
      last piece and opens an empty one (the separator) or extends the
      last piece. */
  function Split(s: string, sep: char): (r: seq<string>)
    ensures |r| >= 1
  {
    if s == [] then [""]
    else
      var init := Split(s[..|s| - 1], sep);
      if s[|s| - 1] == sep then init + [""]
      else init[..|init| - 1] + [init[|init| - 1] + [s[|s| - 1]]]
  }

  /** No piece holds the separator. */
  lemma {:induction false} SplitPiecesLackSep(s: string, sep: char)
    ensures forall i :: 0 <= i < |Split(s, sep)| ==> sep !in Split(s, sep)[i]
  {
    if s != [] {
      var init := Split(s[..|s| - 1], sep);
      SplitPiecesLackSep(s[..|s| - 1], sep);
      if s[|s| - 1] != sep {
        assert sep !in init[|init| - 1] + [s[|s| - 1]];
      }
    }
  }

  /** `Join` on the leading pieces and a last one. */
  lemma JoinSnoc(init: seq<string>, last: string, sep: char)
    ensures Join(init + [last], sep) == if init == [] then last else Join(init, sep) + [sep] + last
  {
    var all := init + [last];
    if init != [] {
      assert all[..|all| - 1] == init;
    }
  }

  /** Extending the last piece extends the joined text. */
  lemma JoinExtendLast(pieces: seq<string>, c: char, sep: char)
    requires |pieces| >= 1
    ensures Join(pieces[..|pieces| - 1] + [pieces[|pieces| - 1] + [c]], sep) == Join(pieces, sep) + [c]
  {
    var lead, last := pieces[..|pieces| - 1], pieces[|pieces| - 1];
    assert pieces == lead + [last];
    JoinSnoc(lead, last, sep);
    JoinSnoc(lead, last + [c], sep);
    if lead != [] {
      var j := Join(lead, sep);
      assert j + [sep] + (last + [c]) == (j + [sep] + last) + [c];
    }
  }

  /** Joining the pieces with `sep` gives `s` back. */
  lemma {:induction false} JoinSplit(s: string, sep: char)
    ensures Join(Split(s, sep), sep) == s
  {
    if s != [] {
      var front, c := s[..|s| - 1], s[|s| - 1];
      var init := Split(front, sep);
      JoinSplit(front, sep);
      assert s == front + [c];
      SplitSnoc(front, c, sep);
      if c == sep {
        JoinSnoc(init, "", sep);
      } else {
        JoinExtendLast(init, c, sep);
      }
    }
  }

  lemma {:induction false} SplitWithoutSep(s: string, sep: char)
    requires sep !in s
    ensures Split(s, sep) == [s]
  {
    if s != [] {
      SplitWithoutSep(s[..|s| - 1], sep);
      assert s[..|s| - 1] + [s[|s| - 1]] == s;
    }
  }

  /** `Split` on some text and one more character. */
  lemma SplitSnoc(t: string, c: char, sep: char)
    ensures var init := Split(t, sep);
      Split(t + [c], sep) == if c == sep then init + [""]
        else init[..|init| - 1] + [init[|init| - 1] + [c]]
  {
    var s := t + [c];
    assert s[..|s| - 1] == t && s[|s| - 1] == c;
  }

  /** Appending one character to both sides keeps `Split` distributing
      over a concatenation whose second part is non-empty. */
  lemma SplitAppendStep(left: seq<string>, right: seq<string>, c: char, sep: char)
    requires |right| >= 1
    ensures var x := left + right;
      (if c == sep then x + [""] else x[..|x| - 1] + [x[|x| - 1] + [c]])
      == left + (if c == sep then right + [""] else right[..|right| - 1] + [right[|right| - 1] + [c]])
  {
    var x := left + right;
    if c == sep {
      assert x + [""] == left + (right + [""]);
    } else {
      var last := [right[|right| - 1] + [c]];
      assert x[..|x| - 1] == left + right[..|right| - 1];
      assert x[..|x| - 1] + last == left + (right[..|right| - 1] + last);
    }
  }

  /** A separator splits the text into the pieces before it and after it. */
  lemma {:induction false} SplitAround(a: string, b: string, sep: char)
    ensures Split(a + [sep] + b, sep) == Split(a, sep) + Split(b, sep)
    decreases |b|
  {
    if b == [] {
      assert a + [sep] + b == a + [sep];
      SplitSnoc(a, sep, sep);
    } else {
      var front := b[..|b| - 1];
      var c := b[|b| - 1];
      var t := a + [sep] + front;
      assert a + [sep] + b == t + [c];
      assert b == front + [c];
      SplitSnoc(t, c, sep);
      SplitSnoc(front, c, sep);
      SplitAround(a, front, sep);
      SplitAppendStep(Split(a, sep), Split(front, sep), c, sep);
    }
  }

  /** Splitting undoes joining when no piece holds the separator. */
  lemma {:induction false} SplitJoin(pieces: seq<string>, sep: char)
    requires |pieces| >= 1
    requires forall i :: 0 <= i < |pieces| ==> sep !in pieces[i]
    ensures Split(Join(pieces, sep), sep) == pieces
  {
    var last := pieces[|pieces| - 1];
    SplitWithoutSep(last, sep);
    if |pieces| > 1 {
      var init := pieces[..|pieces| - 1];
      SplitJoin(init, sep);
      SplitAround(Join(init, sep), last, sep);
      assert pieces == init + [last];
    }
  }

  /** `os.path.isabs(s)`. */
  predicate IsAbs(s: string) {
    |s| > 0 && s[0] == '/'
  }

  /** A part pathlib keeps after the root: non-empty, not ".", no "/". */
  predicate IsName(part: string) {
    part != "" && part != "." && '/' !in part
  }

  /** The pieces pathlib keeps: it drops "" (repeated or trailing
      slashes) and ".". */
  function Names(pieces: seq<string>): (r: seq<string>)
    ensures |r| <= |pieces|
  {
    if pieces == [] then []
    else
      var init := Names(pieces[..|pieces| - 1]);
      var last := pieces[|pieces| - 1];
      if last == "" || last == "." then init else init + [last]
  }

  /** Of pieces without "/", `Names` keeps exactly those that are names. */
  lemma {:induction false} NamesShape(pieces: seq<string>)
    requires forall i :: 0 <= i < |pieces| ==> '/' !in pieces[i]
    ensures var r := Names(pieces);
      && (forall i :: 0 <= i < |r| ==> IsName(r[i]) && r[i] in pieces)
      && (forall i :: 0 <= i < |pieces| && IsName(pieces[i]) ==> pieces[i] in r)
  {
    if pieces != [] {
      var init := pieces[..|pieces| - 1];
      NamesShape(init);
      assert forall i :: 0 <= i < |init| ==> init[i] == pieces[i];
    }
  }

  /** `Names` keeps a list of names as it is. */
  lemma {:induction false} NamesOfNames(pieces: seq<string>)
    requires forall i :: 0 <= i < |pieces| ==> IsName(pieces[i])
    ensures Names(pieces) == pieces
  {
    if pieces != [] {
      NamesOfNames(pieces[..|pieces| - 1]);
      assert pieces == pieces[..|pieces| - 1] + [pieces[|pieces| - 1]];
    }
  }

  lemma {:induction false} NamesConcat(a: seq<string>, b: seq<string>)
    ensures Names(a + b) == Names(a) + Names(b)
    decreases |b|
  {
    if b == [] {
      assert a + b == a;
    } else {
      var front := b[..|b| - 1];
      assert (a + b)[..|a + b| - 1] == a + front && (a + b)[|a + b| - 1] == b[|b| - 1];
      NamesConcat(a, front);
    }
  }

  /** `pathlib.PurePosixPath(s).parts`: the root "/" for an absolute `s`,
      then the names between the slashes. */
  function ParsePath(s: string): (p: Path)
    ensures IsAbs(s) ==> |p| >= 1 && p[0] == "/"
  {
    (if IsAbs(s) then ["/"] else []) + Names(Split(s, '/'))
  }

  /** The root comes first exactly for an absolute `s`; every other part
      is a name. */
  lemma ParsePathShape(s: string)
    ensures var p := ParsePath(s);
      && (IsAbs(s) <==> |p| > 0 && p[0] == "/")
      && forall i :: (if IsAbs(s) then 1 else 0) <= i < |p| ==> IsName(p[i])
  {
    SplitPiecesLackSep(s, '/');
    NamesShape(Split(s, '/'));
    var names := Names(Split(s, '/'));
    assert |names| > 0 ==> '/' in "/" && IsName(names[0]);
  }

  /** Writing `a + "/" + b` and parsing it is `Path(a) / b` for a relative `b`. */
  lemma ParseJoin(a: string, b: string)
    requires a != "" && !IsAbs(b)
    ensures ParsePath(a + "/" + b) == ParsePath(a) + ParsePath(b)
  {
    var s := a + "/" + b;
    assert s == a + ['/'] + b && s[0] == a[0];
    SplitAround(a, b, '/');
    NamesConcat(Split(a, '/'), Split(b, '/'));
    var root := if IsAbs(a) then ["/"] else [];
    var na, nb := Names(Split(a, '/')), Names(Split(b, '/'));
    assert ParsePath(s) == root + (na + nb);
    assert root + (na + nb) == (root + na) + nb;
  }

  /** A name alone parses as itself. */
  lemma OneName(a: string)
    requires IsName(a)
    ensures ParsePath(a) == [a]
  {
    SplitWithoutSep(a, '/');
    NamesOfNames([a]);
  }

  /** Two pieces without the separator, joined by it, split back into
      those two pieces. */
  lemma SplitTwo(a: string, b: string, sep: char)
    requires sep !in a && sep !in b
    ensures Split(a + [sep] + b, sep) == [a, b]
  {
    SplitWithoutSep(a, sep);
    SplitWithoutSep(b, sep);
    SplitAround(a, b, sep);
  }

  /** Two names with "/" between them parse as those two parts. */
  lemma TwoNames(a: string, b: string)
    requires IsName(a) && IsName(b)
    ensures ParsePath(a + "/" + b) == [a, b]
  {
    var s := a + "/" + b;
    assert s == a + ['/'] + b;
    SplitTwo(a, b, '/');
    NamesOfNames([a, b]);
    assert s[0] == a[0] && a[0] in a;
  }

  /** "/" then two names parses as the root and those two parts. */
  lemma RootTwoNames(a: string, b: string)
    requires IsName(a) && IsName(b)
    ensures ParsePath("/" + a + "/" + b) == ["/", a, b]
  {
    var s := "/" + a + "/" + b;
    assert s == "" + ['/'] + (a + ['/'] + b);
    SplitTwo(a, b, '/');
    SplitAround("", a + ['/'] + b, '/');
    assert Split(s, '/') == [""] + [a, b];
    NamesOfNames([a, b]);
    NamesConcat([""], [a, b]);
  }

  /** `s.rstrip(c)`. */
  function RStrip(s: string, c: char): (r: string)
    ensures |r| <= |s|
  {
    if s == [] || s[|s| - 1] != c then s else RStrip(s[..|s| - 1], c)
  }

  /** `rstrip` keeps a prefix, removes only `c`, and leaves no `c` at the end. */
  lemma {:induction false} RStripShape(s: string, c: char)
    ensures var r := RStrip(s, c);
      && r == s[..|r|]
      && (forall i :: |r| <= i < |s| ==> s[i] == c)
      && (r == [] || r[|r| - 1] != c)
  {
    if s != [] && s[|s| - 1] == c {
      RStripShape(s[..|s| - 1], c);
    }
  }

  /** `s.lstrip(c)`. */
  function LStrip(s: string, c: char): (r: string)
    ensures |r| <= |s|
  {
    if s == [] || s[0] != c then s else LStrip(s[1..], c)
  }

  /** `lstrip` keeps a suffix, removes only `c`, and leaves no `c` at the start. */
  lemma {:induction false} LStripShape(s: string, c: char)
    ensures var r := LStrip(s, c);
      && r == s[|s| - |r|..]
      && (forall i :: 0 <= i < |s| - |r| ==> s[i] == c)
      && (r == [] || r[0] != c)
  {
    if s != [] && s[0] == c {
      LStripShape(s[1..], c);
    }
  }

  /** `s.strip(c)`: `LStrip` then `RStrip`; no `c` is left at either end. */
  function Strip(s: string, c: char): (r: string)
    ensures |r| <= |s|
    ensures r == [] || (r[0] != c && r[|r| - 1] != c)
  {
    LStripShape(s, c);
    RStripShape(LStrip(s, c), c);
    RStrip(LStrip(s, c), c)
  }

  /** `os.path.expanduser(s)` for "~" and "~/…" (the current user): the
      home directory with trailing slashes removed, then the rest of `s`;
      "/" when that is empty. Any other `s` is returned unchanged. */
  function ExpandUser(home: string, s: string): (r: string)
    ensures !(|s| > 0 && s[0] == '~' && (|s| == 1 || s[1] == '/')) ==> r == s
  {
    if |s| > 0 && s[0] == '~' && (|s| == 1 || s[1] == '/') then
      var expanded := RStrip(home, '/') + s[1..];
      if expanded == "" then "/" else expanded
    else s
  }

  /** A trailing slash adds no part. */
  lemma TrailingSlash(t: string)
    requires t != ""
    ensures ParsePath(t + "/") == ParsePath(t)
  {
    var s := t + "/";
    assert s[0] == t[0];
    SplitSnoc(t, '/', '/');
    var x := Split(t, '/') + [""];
    assert x[..|x| - 1] == Split(t, '/');
  }

  /** "/" alone is the root. */
  lemma RootOnly()
    ensures ParsePath("/") == ["/"]
  {
    SplitAround("", "", '/');
    assert "" + ['/'] + "" == "/";
    assert Split("/", '/') == ["", ""];
    assert Names(["", ""]) == Names([""]) == [];
  }

  /** Removing trailing slashes does not change the parts; a string of
      slashes only is the root. */
  lemma {:induction false} RStripParses(s: string)
    requires s != ""
    ensures ParsePath(s) == if RStrip(s, '/') == "" then ["/"] else ParsePath(RStrip(s, '/'))
    decreases |s|
  {
    if s[|s| - 1] == '/' {
      var t := s[..|s| - 1];
      assert s == t + "/";
      if t == "" {
        RootOnly();
      } else {
        TrailingSlash(t);
        RStripParses(t);
      }
    }
  }

  /** `expanduser("~")` parses as the home directory; an empty home gives "/". */
  lemma ExpandHome(home: string)
    ensures home != "" ==> ParsePath(ExpandUser(home, "~")) == ParsePath(home)
    ensures home == "" ==> ParsePath(ExpandUser(home, "~")) == ["/"]
  {
    assert "~"[1..] == "";
    var t := RStrip(home, '/');
    assert ExpandUser(home, "~") == if t == "" then "/" else t;
    RootOnly();
    if home != "" {
      RStripParses(home);
    }
  }

  /** "/" followed by a relative path is the root and that path's parts. */
  lemma RootThen(rel: string)
    requires !IsAbs(rel)
    ensures ParsePath("/" + rel) == ["/"] + ParsePath(rel)
  {
    var s := "/" + rel;
    assert s == "" + ['/'] + rel;
    SplitAround("", rel, '/');
    NamesConcat([""], Split(rel, '/'));
    assert Names([""]) == [];
    assert Names(Split(s, '/')) == Names(Split(rel, '/'));
  }

  /** A "~/rel" default names `rel` under the parsed home directory,
      whatever trailing slashes the home directory has. */
  lemma ExpandUserUnderHome(home: string, rel: string)
    requires home != "" && !IsAbs(rel)
    ensures ParsePath(ExpandUser(home, "~/" + rel)) == ParsePath(home) + ParsePath(rel)
  {
    var t := RStrip(home, '/');
    assert ("~/" + rel)[1..] == "/" + rel;
    assert ExpandUser(home, "~/" + rel) == t + "/" + rel;
    RStripParses(home);
    if t == "" {
      assert t + "/" + rel == "/" + rel;
      RootThen(rel);
    } else {
      ParseJoin(t, rel);
    }
  }

  /** The parts `os.path.normpath` keeps of the pieces of an absolute path:
      "" and "." vanish, ".." removes the part before it (and nothing at
      the root), anything else is kept. */
  function Collapse(acc: seq<string>, pieces: seq<string>): (r: seq<string>)
    ensures |r| <= |acc| + |pieces|
    decreases |pieces|
  {
    if pieces == [] then acc
    else
      var piece := pieces[0];
      if piece == "" || piece == "." then Collapse(acc, pieces[1..])
      else if piece == ".." then Collapse(if acc == [] then [] else acc[..|acc| - 1], pieces[1..])
      else Collapse(acc + [piece], pieces[1..])
  }

  /** Collapsing keeps only names, and never "..". */
  lemma {:induction false} CollapseShape(acc: seq<string>, pieces: seq<string>)
    requires forall i :: 0 <= i < |acc| ==> IsName(acc[i]) && acc[i] != ".."
    requires forall i :: 0 <= i < |pieces| ==> '/' !in pieces[i]
    ensures forall i :: 0 <= i < |Collapse(acc, pieces)| ==>
      IsName(Collapse(acc, pieces)[i]) && Collapse(acc, pieces)[i] != ".."
    decreases |pieces|
  {
    if pieces != [] {
      var rest := pieces[1..];
      assert forall i :: 0 <= i < |rest| ==> rest[i] == pieces[i + 1];
      var piece := pieces[0];
      var next := if piece == "" || piece == "." then acc
        else if piece == ".." then (if acc == [] then [] else acc[..|acc| - 1])
        else acc + [piece];
      assert Collapse(acc, pieces) == Collapse(next, rest);
      CollapseShape(next, rest);
    }
  }

  /** `pathlib.Path(os.path.normpath(s)).parts` for an absolute `s`. */
  function NormAbs(s: string): (p: Path)
    requires IsAbs(s)
    ensures |p| >= 1 && p[0] == "/"
  {
    ["/"] + Collapse([], Split(s, '/'))
  }

  /** After the root come only names, and no "..". */
  lemma NormAbsShape(s: string)
    requires IsAbs(s)
    ensures forall i :: 1 <= i < |NormAbs(s)| ==> IsName(NormAbs(s)[i]) && NormAbs(s)[i] != ".."
  {
    SplitPiecesLackSep(s, '/');
    var names := Collapse([], Split(s, '/'));
    CollapseShape([], Split(s, '/'));
    assert forall i :: 1 <= i < |NormAbs(s)| ==> NormAbs(s)[i] == names[i - 1];
  }

  /** Without "..", collapsing only drops "" and ".", as parsing does. */
  lemma {:induction false} CollapseWithoutParent(acc: seq<string>, pieces: seq<string>)
    requires ".." !in pieces
    ensures Collapse(acc, pieces) == acc + Names(pieces)
    decreases |pieces|
  {
    if pieces == [] {
      assert Names(pieces) == [];
    } else {
      var piece, rest := pieces[0], pieces[1..];
      assert pieces == [piece] + rest;
      NamesConcat([piece], rest);
      assert Names([piece]) == if piece == "" || piece == "." then [] else [piece] by {
        assert [piece][..0] == [];
      }
      if piece == "" || piece == "." {
        CollapseWithoutParent(acc, rest);
      } else {
        CollapseWithoutParent(acc + [piece], rest);
      }
    }
  }

  /** An absolute path without ".." normalises to its parsed parts. */
  lemma NormAbsWithoutParent(s: string)
    requires IsAbs(s) && ".." !in Split(s, '/')
    ensures NormAbs(s) == ParsePath(s)
  {
    CollapseWithoutParent([], Split(s, '/'));
  }

  /** ".." removes the name before it, and at the root it is dropped. */
  lemma ParentRemovesName(acc: seq<string>, name: string, rest: seq<string>)
    requires name != "" && name != "." && name != ".."
    ensures Collapse(acc, [name, ".."] + rest) == Collapse(acc, rest)
    ensures Collapse([], [".."] + rest) == Collapse([], rest)
  {
    var pieces := [name, ".."] + rest;
    assert pieces[0] == name && pieces[1..] == [".."] + rest;
    assert ([".."] + rest)[0] == ".." && ([".."] + rest)[1..] == rest;
    assert (acc + [name])[..|acc + [name]| - 1] == acc;
  }
}
