/** The string handling the Hirshfeld-ratio files need: splitting a line into its
    whitespace-separated fields, as Python's argument-less str.split() does, and taking the last
    component of a '/'-separated path. */
module Text {

  /** The ASCII whitespace characters str.split() separates on. */
  /** The characters Python's `str.isspace` accepts, which `str.split()` splits on: tab to
      carriage return, the four information separators, space, NEL, no-break space, and the
      Unicode space and separator characters. */
  predicate IsSpace(c: char) {
    ('\t' <= c <= '\r') || ('\U{001C}' <= c <= ' ') || c == '\U{0085}' || c == '\U{00A0}' ||
    c == '\U{1680}' || ('\U{2000}' <= c <= '\U{200A}') || c == '\U{2028}' || c == '\U{2029}' ||
    c == '\U{202F}' || c == '\U{205F}' || c == '\U{3000}'
  }

  predicate NoSpace(w: string) {
    forall i :: 0 <= i < |w| ==> !IsSpace(w[i])
  }

  predicate AllSpace(w: string) {
    forall i :: 0 <= i < |w| ==> IsSpace(w[i])
  }

  /** The longest prefix of s without whitespace. */
  function Word(s: string): (r: string)
    ensures |r| <= |s| && r == s[..|r|] && NoSpace(r)
    ensures |r| < |s| ==> IsSpace(s[|r|])
  {
    if |s| == 0 || IsSpace(s[0]) then [] else [s[0]] + Word(s[1..])
  }

  /** The fields of a line: its maximal runs of non-whitespace characters, in order. */
  function Fields(s: string): seq<string>
    decreases |s|
  {
    if |s| == 0 then []
    else if IsSpace(s[0]) then Fields(s[1..])
    else
      var w := Word(s);
      assert w[0] == s[0];
      [w] + Fields(s[|w|..])
  }

  /** Leading, trailing and repeated whitespace produce no empty field, and every field is free
      of whitespace; a blank line has no field. */
  lemma {:induction false} FieldsProperties(s: string)
    ensures forall k :: 0 <= k < |Fields(s)| ==> |Fields(s)[k]| > 0 && NoSpace(Fields(s)[k])
    ensures AllSpace(s) ==> Fields(s) == []
    decreases |s|
  {
    if |s| > 0 {
      if IsSpace(s[0]) {
        FieldsProperties(s[1..]);
      } else {
        var w := Word(s);
        assert w[0] == s[0];
        FieldsProperties(s[|w|..]);
      }
    }
  }

  /** The words separated by single spaces. */
  function Join(ws: seq<string>): string {
    if |ws| == 0 then ""
    else if |ws| == 1 then ws[0]
    else ws[0] + " " + Join(ws[1..])
  }

  lemma {:induction false} WordOf(w: string, rest: string)
    requires NoSpace(w)
    requires |rest| == 0 || IsSpace(rest[0])
    ensures Word(w + rest) == w
  {
    if |w| == 0 {
      assert w + rest == rest;
    } else {
      assert (w + rest)[1..] == w[1..] + rest;
      WordOf(w[1..], rest);
      assert [w[0]] + w[1..] == w;
    }
  }

  lemma {:induction false} FieldsOfSpaces(sp: string, s: string)
    requires AllSpace(sp)
    ensures Fields(sp + s) == Fields(s)
  {
    if |sp| > 0 {
      assert (sp + s)[1..] == sp[1..] + s;
      FieldsOfSpaces(sp[1..], s);
    } else {
      assert sp + s == s;
    }
  }

  /** Splitting undoes joining: words without whitespace, joined by single spaces and followed
      by any whitespace (a line's newline), split back into the same words. */
  lemma {:induction false} FieldsJoin(ws: seq<string>, tail: string)
    requires forall k :: 0 <= k < |ws| ==> |ws[k]| > 0 && NoSpace(ws[k])
    requires AllSpace(tail)
    ensures Fields(Join(ws) + tail) == ws
  {
    if |ws| == 0 {
      assert Join(ws) + tail == tail;
      FieldsProperties(tail);
    } else {
      var rest := if |ws| == 1 then tail else " " + (Join(ws[1..]) + tail);
      assert Join(ws) + tail == ws[0] + rest;
      FieldsCons(ws[0], rest);
      if |ws| == 1 {
        FieldsProperties(rest);
      } else {
        FieldsJoin(ws[1..], tail);
        FieldsOfSpaces(" ", Join(ws[1..]) + tail);
      }
      assert ws == [ws[0]] + ws[1..];
    }
  }

  /** A word followed by nothing or by whitespace is the first field. */
  lemma FieldsCons(w: string, rest: string)
    requires |w| > 0 && NoSpace(w)
    requires |rest| == 0 || IsSpace(rest[0])
    ensures Fields(w + rest) == [w] + Fields(rest)
  {
    WordOf(w, rest);
    var s := w + rest;
    assert s[0] == w[0];
    assert s[|w|..] == rest;
  }

  /** The position of the last '/' of a path, -1 when it has none. */
  function LastSlash(path: string): (r: int)
    ensures -1 <= r < |path|
    ensures r >= 0 ==> path[r] == '/'
    ensures forall i :: r < i < |path| ==> path[i] != '/'
  {
    if |path| == 0 then -1
    else if path[|path| - 1] == '/' then |path| - 1
    else LastSlash(path[..|path| - 1])
  }

  /** The part of a path after its last '/', the whole path when it has none: a '/'-free
      suffix of the path, preceded by a '/' unless it is the whole path. */
  function Basename(path: string): (r: string)
    ensures |r| <= |path| && r == path[|path| - |r|..]
    ensures forall i :: 0 <= i < |r| ==> r[i] != '/'
    ensures |r| < |path| ==> path[|path| - |r| - 1] == '/'
  {
    path[LastSlash(path) + 1..]
  }

  /** A name without '/' is its own base name, whatever directory precedes it. */
  lemma {:induction false} BasenameOfJoin(dir: string, name: string)
    requires forall i :: 0 <= i < |name| ==> name[i] != '/'
    ensures Basename(dir + "/" + name) == name
  {
    if |name| == 0 {
      assert (dir + "/" + name)[|dir + "/" + name| - 1] == '/';
    } else {
      var p := dir + "/" + name;
      assert p[..|p| - 1] == dir + "/" + name[..|name| - 1];
      BasenameOfJoin(dir, name[..|name| - 1]);
      assert name == name[..|name| - 1] + [name[|name| - 1]];
    }
  }
}
