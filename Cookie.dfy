/**
 * The CSRF helper `getCookie` (menu_app/static/menu_app/js/base.js): it
 * reads one cookie's value out of the browser's cookie string.
 *
 * The cookie string is a parameter in place of `document.cookie`; the
 * value is returned as stored, without `decodeURIComponent`.
 */
module Cookie {
  import opened Wrappers
  import opened Text

  /** JavaScript's `s.split(sep)` for a one-character separator: always at least one piece. */
  function Split(s: string, sep: char): (r: seq<string>)
    ensures |r| >= 1
    ensures forall k :: 0 <= k < |r| ==> sep !in r[k]
    decreases |s|
  {
    if s == [] then [""]
    else if s[0] == sep then [""] + Split(s[1..], sep)
    else
      var rest := Split(s[1..], sep);
      [[s[0]] + rest[0]] + rest[1..]
  }

  /** The pieces joined back with the separator between them. */
  function Join(pieces: seq<string>, sep: char): string
    requires |pieces| >= 1
  {
    if |pieces| == 1 then pieces[0] else pieces[0] + [sep] + Join(pieces[1..], sep)
  }

  /** Splitting loses nothing: joining the pieces gives the cookie string back. */
  lemma {:induction false} JoinSplit(s: string, sep: char)
    ensures Join(Split(s, sep), sep) == s
    decreases |s|
  {
    if s == [] {
    } else if s[0] == sep {
      JoinSplit(s[1..], sep);
      assert s == [sep] + s[1..];
    } else {
      var rest := Split(s[1..], sep);
      JoinSplit(s[1..], sep);
      assert s == [s[0]] + s[1..];
      if |rest| == 1 {
        assert Join(rest, sep) == rest[0];
      } else {
        assert Join(rest, sep) == rest[0] + [sep] + Join(rest[1..], sep);
        assert ([[s[0]] + rest[0]] + rest[1..])[1..] == rest[1..];
      }
    }
  }

  /** `cookie.substring(0, name.length + 1) === (name + "=")`: the piece starts with the name and `=`. */
  predicate Matches(piece: string, name: string)
  {
    |piece| >= |name| + 1 && piece[..|name| + 1] == name + "="
  }

  /** Every piece trimmed. */
  function Trimmed(pieces: seq<string>): (t: seq<string>)
    ensures |t| == |pieces| && forall j :: 0 <= j < |pieces| ==> t[j] == Strip(pieces[j])
  {
    seq(|pieces|, j requires 0 <= j < |pieces| => Strip(pieces[j]))
  }

  /** The index of the first piece that matches; the number of pieces when none does. */
  function FirstMatchAt(pieces: seq<string>, name: string): (k: nat)
    ensures k <= |pieces|
    ensures forall j :: 0 <= j < k ==> !Matches(pieces[j], name)
    ensures k < |pieces| ==> Matches(pieces[k], name)
  {
    if pieces == [] then 0
    else if Matches(pieces[0], name) then 0
    else
      var rest := pieces[1..];
      var k := FirstMatchAt(rest, name);
      assert forall j :: 1 <= j <= k ==> pieces[j] == rest[j - 1];
      1 + k
  }

  /** The only index meeting the contract of `FirstMatchAt` is its result. */
  lemma FirstMatchAtIs(pieces: seq<string>, name: string, i: nat)
    requires i <= |pieces|
    requires forall j :: 0 <= j < i ==> !Matches(pieces[j], name)
    requires i < |pieces| ==> Matches(pieces[i], name)
    ensures FirstMatchAt(pieces, name) == i
  {
  }

  /** The text after `name=` in the first trimmed piece that matches, if any. */
  function FirstMatch(pieces: seq<string>, name: string): (r: Option<string>)
    ensures var t := Trimmed(pieces);
      r.None? <==> forall k :: 0 <= k < |t| ==> !Matches(t[k], name)
    ensures var t := Trimmed(pieces); var k := FirstMatchAt(t, name);
      r.Some? ==> k < |t| && r.value == t[k][|name| + 1..]
  {
    var t := Trimmed(pieces);
    var k := FirstMatchAt(t, name);
    if k == |t| then None
    else
      assert Matches(t[k], name);
      Some(t[k][|name| + 1..])
  }

  /** The first match found at index i of the trimmed pieces decides the value. */
  lemma FirstMatchIs(pieces: seq<string>, name: string, i: nat)
    requires i <= |pieces|
    requires forall j :: 0 <= j < i ==> !Matches(Trimmed(pieces)[j], name)
    requires i < |pieces| ==> Matches(Trimmed(pieces)[i], name)
    ensures FirstMatch(pieces, name) == if i == |pieces| then None else Some(Trimmed(pieces)[i][|name| + 1..])
  {
    FirstMatchAtIs(Trimmed(pieces), name, i);
  }

  /** What `getCookie(name)` returns for the cookie string `cookie`: null for an empty string. */
  function CookieValue(cookie: string, name: string): (r: Option<string>)
    ensures r.None? <==> cookie == "" || forall piece :: piece in Split(cookie, ';') ==> !Matches(Strip(piece), name)
    ensures r.Some? ==> exists piece :: piece in Split(cookie, ';') && Matches(Strip(piece), name) && r.value == Strip(piece)[|name| + 1..]
  {
    if cookie == "" then None
    else
      FirstMatchPieces(Split(cookie, ';'), name);
      FirstMatch(Split(cookie, ';'), name)
  }

  /** `FirstMatch` stated over the pieces themselves rather than their positions. */
  lemma FirstMatchPieces(pieces: seq<string>, name: string)
    ensures FirstMatch(pieces, name).None? <==> forall piece :: piece in pieces ==> !Matches(Strip(piece), name)
    ensures FirstMatch(pieces, name).Some? ==>
      exists piece :: piece in pieces && Matches(Strip(piece), name) && FirstMatch(pieces, name).value == Strip(piece)[|name| + 1..]
  {
    var t := Trimmed(pieces);
    var r := FirstMatch(pieces, name);
    if r.Some? {
      var k := FirstMatchAt(t, name);
      assert pieces[k] in pieces && t[k] == Strip(pieces[k]);
    } else {
      forall piece | piece in pieces ensures !Matches(Strip(piece), name) {
        var k :| 0 <= k < |pieces| && pieces[k] == piece;
        assert t[k] == Strip(piece);
      }
    }
  }

  /** `getCookie`: an empty cookie string gives null; otherwise the pieces are searched. */
  method GetCookie(cookie: string, name: string) returns (value: Option<string>)
    ensures value == CookieValue(cookie, name)
  {
    if cookie == "" {
      return None;
    }
    var pieces := Split(cookie, ';');
    value := SearchPieces(pieces, name);
  }

  /** The loop of `getCookie` over the pieces, stopping at the first match. */
  method SearchPieces(pieces: seq<string>, name: string) returns (value: Option<string>)
    ensures value == FirstMatch(pieces, name)
  {
    ghost var t := Trimmed(pieces);
    var i := 0;
    while i < |pieces|
      invariant 0 <= i <= |pieces|
      invariant forall j :: 0 <= j < i ==> !Matches(t[j], name)
    {
      var piece := Strip(pieces[i]);
      assert piece == t[i];
      if |piece| >= |name| + 1 && piece[..|name| + 1] == name + "=" {
        FirstMatchIs(pieces, name, i);
        return Some(piece[|name| + 1..]);
      }
      i := i + 1;
    }
    FirstMatchIs(pieces, name, i);
    return None;
  }

  /** A cookie string holding just `name=value` yields that value. */
  lemma SingleCookie(name: string, value: string)
    requires name != [] && !IsSpace(name[0]) && ';' !in name && ';' !in value
    requires value != [] ==> !IsSpace(value[|value| - 1])
    ensures CookieValue(name + "=" + value, name) == Some(value)
  {
    var s := name + "=" + value;
    JoinSplit(s, ';');
    SplitWithout(s, ';');
    assert StripLeft(s) == s;
    assert StripRight(s) == s;
    assert s[..|name| + 1] == name + "=";
    assert s[|name| + 1..] == value;
  }

  /** A text without the separator is one piece. */
  lemma {:induction false} SplitWithout(s: string, sep: char)
    requires sep !in s
    ensures Split(s, sep) == [s]
    decreases |s|
  {
    if s != [] {
      assert s[0] in s;
      assert s == [s[0]] + s[1..];
      SplitWithout(s[1..], sep);
      var rest := Split(s[1..], sep);
      assert rest[1..] == [];
    }
  }

  /** An earlier cookie of the same name shadows a later one. */
  lemma FirstCookieWins(pieces: seq<string>, name: string, k: nat)
    requires k < |pieces| && Matches(Strip(pieces[k]), name)
    requires forall j :: 0 <= j < k ==> !Matches(Strip(pieces[j]), name)
    ensures FirstMatch(pieces, name) == Some(Strip(pieces[k])[|name| + 1..])
  {
    FirstMatchAtIs(Trimmed(pieces), name, k);
  }
}
