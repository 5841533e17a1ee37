/** JSON pointers (RFC 6901): escaping and joining key paths, and reading them back. */
module JsonPointer {
  import opened Wrappers

  type Path = seq<string>

  /** Every occurrence of `from`, found left to right, replaced by `to`. */
  function Replace(s: string, from: string, to: string): string
    requires from != []
  {
    if |s| < |from| then s
    else if s[..|from|] == from then to + Replace(s[|from|..], from, to)
    else [s[0]] + Replace(s[1..], from, to)
  }

  /** Section 3 of RFC 6901. */
  function Escape(segment: string): string {
    Replace(Replace(segment, "~", "~0"), "/", "~1")
  }

  /** What section 3 of RFC 6901 writes for one character. */
  function EscapedChar(c: char): string {
    if c == '~' then "~0" else if c == '/' then "~1" else [c]
  }

  function CharByChar(segment: string): string {
    if segment == "" then "" else EscapedChar(segment[0]) + CharByChar(segment[1..])
  }

  lemma {:induction false} ReplaceJoined(a: string, b: string, c: char, to: string)
    ensures Replace(a + b, [c], to) == Replace(a, [c], to) + Replace(b, [c], to)
  {
    if a == "" {
      assert a + b == b;
    } else {
      ReplaceJoined(a[1..], b, c, to);
      assert (a + b)[1..] == a[1..] + b && (a + b)[..1] == a[..1] == [a[0]];
    }
  }

  /** Only the tilde and the slash are escaped, character by character. */
  lemma {:induction false} EscapeIsCharByChar(segment: string)
    ensures Escape(segment) == CharByChar(segment)
  {
    if segment != "" {
      var first, rest := segment[..1], segment[1..];
      EscapeIsCharByChar(rest);
      assert segment == first + rest && first == [segment[0]];
      ReplaceJoined(first, rest, '~', "~0");
      ReplaceJoined(Replace(first, "~", "~0"), Replace(rest, "~", "~0"), '/', "~1");
      OneCharacter(segment[0]);
    }
  }

  lemma OneCharacter(c: char)
    ensures Escape([c]) == EscapedChar(c)
  {
    assert [c][..1] == [c] && [c][1..] == "";
    assert Replace([c], "~", "~0") == if c == '~' then "~0" else [c];
    if c == '~' {
      assert "~0"[..1] == "~" && "~0"[1..] == "0" && "0"[..1] == "0" && "0"[1..] == "";
      assert Replace("0", "/", "~1") == "0";
    }
  }

  /** Section 4 of RFC 6901: first "~1", then "~0". */
  function Unescape(segment: string): string {
    Replace(Replace(segment, "~1", "/"), "~0", "~")
  }

  function Join(parts: Path): string {
    if parts == [] then ""
    else if |parts| == 1 then parts[0]
    else parts[0] + "/" + Join(parts[1..])
  }

  function Split(s: string): (parts: Path)
    ensures parts != []
  {
    if s == "" then [""]
    else
      var rest := Split(s[1..]);
      if s[0] == '/' then [""] + rest else [[s[0]] + rest[0]] + rest[1..]
  }

  function Escaped(path: Path): (r: Path)
    ensures |r| == |path|
  {
    seq(|path|, i requires 0 <= i < |path| => Escape(path[i]))
  }

  function Pointer(path: Path): string {
    "/" + Join(Escaped(path))
  }

  /** The key path a pointer stands for; `None` when it is malformed. */
  function Parts(pointer: string): Option<Path> {
    if pointer == "" || pointer[0] != '/' then None
    else
      var segments := Split(pointer[1..]);
      Some(seq(|segments|, i requires 0 <= i < |segments| => Unescape(segments[i])))
  }

  /** Every tilde is followed by a zero. */
  predicate TildesMarked(s: string) {
    forall i :: 0 <= i < |s| && s[i] == '~' ==> i + 1 < |s| && s[i + 1] == '0'
  }

  lemma {:induction false} TildesRoundTrip(s: string)
    ensures Replace(Replace(s, "~", "~0"), "~0", "~") == s
    ensures TildesMarked(Replace(s, "~", "~0"))
  {
    if s != "" {
      TildesRoundTrip(s[1..]);
      var rest := Replace(s[1..], "~", "~0");
      var marked := Replace(s, "~", "~0");
      assert s == [s[0]] + s[1..];
      if s[0] == '~' {
        assert s[..1] == "~";
        assert marked == "~0" + rest;
        assert marked[..2] == "~0" && marked[2..] == rest;
      } else {
        assert s[..1] != "~" by { assert s[..1][0] == s[0]; }
        assert marked == [s[0]] + rest;
        assert marked[1..] == rest;
        assert |marked| >= 2 ==> marked[..2] != "~0" by { if |marked| >= 2 { assert marked[..2][0] == s[0]; } }
      }
    }
  }

  lemma {:induction false} SlashesRoundTrip(t: string)
    requires TildesMarked(t)
    ensures Replace(Replace(t, "/", "~1"), "~1", "/") == t
    ensures '/' !in Replace(t, "/", "~1")
  {
    if t != "" {
      var rest := Replace(t[1..], "/", "~1");
      var escaped := Replace(t, "/", "~1");
      assert TildesMarked(t[1..]) by {
        forall i | 0 <= i < |t[1..]| && t[1..][i] == '~' ensures i + 1 < |t[1..]| && t[1..][i + 1] == '0' {
          assert t[i + 1] == '~';
        }
      }
      SlashesRoundTrip(t[1..]);
      assert t == [t[0]] + t[1..];
      if t[0] == '/' {
        assert t[..1] == "/";
        assert escaped == "~1" + rest;
        assert escaped[..2] == "~1" && escaped[2..] == rest;
      } else {
        assert t[..1] != "/" by { assert t[..1][0] == t[0]; }
        assert escaped == [t[0]] + rest;
        assert escaped[1..] == rest;
        if t[0] == '~' {
          assert t[1] == '0' && t[1..] == ['0'] + t[2..];
          assert t[1..][..1] != "/" by { assert t[1..][..1][0] == '0'; }
          assert rest[0] == '0';
        }
        assert |escaped| >= 2 ==> escaped[..2] != "~1" by {
          if |escaped| >= 2 { assert escaped[..2][0] == t[0] && escaped[..2][1] == rest[0]; }
        }
      }
    }
  }

  lemma EscapeRoundTrip(segment: string)
    ensures Unescape(Escape(segment)) == segment && '/' !in Escape(segment)
  {
    TildesRoundTrip(segment);
    SlashesRoundTrip(Replace(segment, "~", "~0"));
  }

  lemma {:induction false} SplitPrefix(head: string, tail: string)
    requires '/' !in head
    ensures Split(head + "/" + tail) == [head] + Split(tail)
    ensures Split(head) == [head]
  {
    if head == "" {
      assert head + "/" + tail == "/" + tail;
      assert ("/" + tail)[1..] == tail;
    } else {
      SplitPrefix(head[1..], tail);
      assert (head + "/" + tail)[1..] == head[1..] + "/" + tail;
      assert head == [head[0]] + head[1..];
    }
  }

  lemma {:induction false} SplitJoin(parts: Path)
    requires parts != [] && forall i :: 0 <= i < |parts| ==> '/' !in parts[i]
    ensures Split(Join(parts)) == parts
  {
    if |parts| == 1 {
      SplitPrefix(parts[0], "");
    } else {
      SplitJoin(parts[1..]);
      SplitPrefix(parts[0], Join(parts[1..]));
    }
  }

  /** Reading a pointer back gives the path it was made from. */
  lemma PointerRoundTrip(path: Path)
    requires path != []
    ensures Parts(Pointer(path)) == Some(path)
  {
    forall i | 0 <= i < |path| ensures '/' !in Escaped(path)[i] && Unescape(Escaped(path)[i]) == path[i] {
      EscapeRoundTrip(path[i]);
    }
    SplitJoin(Escaped(path));
    assert Pointer(path)[1..] == Join(Escaped(path));
    assert Parts(Pointer(path)).value == path;
  }

  lemma PointerIsInjective(a: Path, b: Path)
    requires a != [] && b != [] && Pointer(a) == Pointer(b)
    ensures a == b
  {
    PointerRoundTrip(a);
    PointerRoundTrip(b);
  }
}
