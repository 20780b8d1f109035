/**
 * The browser-side logic of static/js/main.js and static/js/profile.js: the
 * theme toggle and its saved default, required-field validation, and the two
 * cookie readers used to find the CSRF token.
 */
module Browser {
  import opened Wrappers
  import opened Text

  /** The theme the toggle switches to from the page's current data-theme attribute (null when absent). */
  function NextTheme(current: Option<string>): (r: string)
    ensures r == "light" || r == "dark"
    ensures r == "dark" <==> current == Some("light")
  {
    if current == Some("light") then "dark" else "light"
  }

  /** Toggling twice from light or dark comes back; from anything else it lands on light and stays in the two-theme cycle. */
  lemma ToggleTwice(current: Option<string>)
    ensures current == Some("light") || current == Some("dark") ==>
      Some(NextTheme(Some(NextTheme(current)))) == current
    ensures !(current == Some("light") || current == Some("dark")) ==> NextTheme(current) == "light"
  {
  }

  /** localStorage.getItem('theme') || 'light': a missing or empty stored theme falls back to light. */
  function SavedTheme(stored: Option<string>): (r: string)
    ensures stored.Some? && stored.value != [] ==> r == stored.value
    ensures stored.None? || stored == Some([]) ==> r == "light"
  {
    if stored.Some? && stored.value != [] then stored.value else "light"
  }

  /** The page's theme attribute and the stored preference, as the theme script changes them. */
  class ThemeState {
    var dataTheme: Option<string>
    var storedTheme: Option<string>

    constructor (storedTheme: Option<string>)
      ensures this.dataTheme == None && this.storedTheme == storedTheme
    {
      this.dataTheme := None;
      this.storedTheme := storedTheme;
    }

    /** On load the attribute is set from the saved preference. */
    method ApplySaved()
      modifies this
      ensures dataTheme == Some(SavedTheme(old(storedTheme))) && storedTheme == old(storedTheme)
    {
      dataTheme := Some(SavedTheme(storedTheme));
    }

    /** A click sets both the attribute and the stored preference to the other theme. */
    method Toggle()
      modifies this
      ensures dataTheme == Some(NextTheme(old(dataTheme))) && storedTheme == dataTheme
    {
      var newTheme := NextTheme(dataTheme);
      dataTheme := Some(newTheme);
      storedTheme := Some(newTheme);
    }
  }

  /** A required input counts as filled when its trimmed value is not empty. */
  predicate Filled(value: string) {
    JsTrim(value) != []
  }

  /**
   * validateForm over the values of the form's required inputs: every input is
   * visited, each empty one is marked with an error and each filled one has its
   * error cleared, and the form is valid exactly when all are filled.
   */
  method ValidateForm(values: seq<string>) returns (isValid: bool, marked: seq<bool>)
    ensures |marked| == |values|
    ensures forall i :: 0 <= i < |values| ==> (marked[i] <==> !Filled(values[i]))
    ensures isValid <==> forall i :: 0 <= i < |values| ==> Filled(values[i])
  {
    isValid := true;
    marked := [];
    var i := 0;
    while i < |values|
      invariant 0 <= i <= |values|
      invariant |marked| == i
      invariant forall j :: 0 <= j < i ==> (marked[j] <==> !Filled(values[j]))
      invariant isValid <==> forall j :: 0 <= j < i ==> Filled(values[j])
    {
      if JsTrim(values[i]) == [] {
        isValid := false;
        marked := marked + [true];
      } else {
        marked := marked + [false];
      }
      i := i + 1;
    }
  }

  /** The first of the entries that starts with the given prefix. */
  function FindEntry(entries: seq<string>, prefix: string): (r: Option<string>)
    ensures r.Some? ==> r.value in entries && StartsWith(r.value, prefix)
    ensures r.None? <==> forall j :: 0 <= j < |entries| ==> !StartsWith(entries[j], prefix)
  {
    if entries == [] then None
    else if StartsWith(entries[0], prefix) then Some(entries[0])
    else FindEntry(entries[1..], prefix)
  }

  /** The first entry with the prefix is the one found. */
  lemma {:induction false} FindEntryFirst(entries: seq<string>, prefix: string, j: nat)
    requires j < |entries| && StartsWith(entries[j], prefix)
    requires forall k :: 0 <= k < j ==> !StartsWith(entries[k], prefix)
    ensures FindEntry(entries, prefix) == Some(entries[j])
  {
    if j > 0 {
      assert entries[1..][j - 1] == entries[j];
      forall k | 0 <= k < j - 1
        ensures !StartsWith(entries[1..][k], prefix)
      {
        assert entries[1..][k] == entries[k + 1];
      }
      FindEntryFirst(entries[1..], prefix, j - 1);
    }
  }

  /** One step of the search: look at entry i, then go on from i + 1. */
  lemma FindEntryStep(entries: seq<string>, prefix: string, i: nat)
    requires i < |entries|
    ensures FindEntry(entries[i..], prefix) ==
      if StartsWith(entries[i], prefix) then Some(entries[i]) else FindEntry(entries[i + 1..], prefix)
  {
    assert entries[i..][0] == entries[i];
    assert entries[i..][1..] == entries[i + 1..];
  }

  /** Each ';'-separated entry, trimmed as getCookie trims it. */
  function Trimmed(entries: seq<string>): (r: seq<string>)
    ensures |r| == |entries|
  {
    if entries == [] then [] else [JsTrim(entries[0])] + Trimmed(entries[1..])
  }

  lemma {:induction false} TrimmedAt(entries: seq<string>, i: nat)
    requires i < |entries|
    ensures Trimmed(entries)[i] == JsTrim(entries[i])
  {
    if i > 0 {
      TrimmedAt(entries[1..], i - 1);
    }
  }

  /**
   * getCookie(name) on document.cookie, with decodeURIComponent as `decode`:
   * the first trimmed entry that starts with `name=` has the rest of it decoded.
   */
  function CookieValue(cookie: string, name: string, decode: string -> string): Option<string> {
    if cookie == [] then None
    else
      match FindEntry(Trimmed(Split(cookie, ";")), name + "=")
      case None => None
      case Some(entry) => Some(decode(entry[|name| + 1..]))
  }

  /** The loop of getCookie, which stops at the first matching entry. */
  method GetCookie(cookie: string, name: string, decode: string -> string) returns (cookieValue: Option<string>)
    ensures cookieValue == CookieValue(cookie, name, decode)
  {
    cookieValue := None;
    if cookie != [] {
      var cookies := Split(cookie, ";");
      ghost var trimmed := Trimmed(cookies);
      var i := 0;
      while i < |cookies|
        invariant 0 <= i <= |cookies|
        invariant FindEntry(trimmed, name + "=") == FindEntry(trimmed[i..], name + "=")
      {
        var entry := JsTrim(cookies[i]);
        TrimmedAt(cookies, i);
        FindEntryStep(trimmed, name + "=", i);
        if |name| + 1 <= |entry| && entry[..|name| + 1] == name + "=" {
          cookieValue := Some(decode(entry[|name| + 1..]));
          break;
        }
        i := i + 1;
      }
    }
  }

  /** No entry, once trimmed, starts with `name=`. */
  predicate NoCookieMatch(entries: seq<string>, name: string) {
    forall j :: 0 <= j < |entries| ==> !StartsWith(JsTrim(entries[j]), name + "=")
  }

  /** An empty cookie string, or no trimmed entry starting with `name=`, gives null; and only those. */
  lemma CookieValueNone(cookie: string, name: string, decode: string -> string)
    ensures CookieValue(cookie, name, decode) == None <==> cookie == [] || NoCookieMatch(Split(cookie, ";"), name)
  {
    if cookie != [] {
      TrimmedNone(Split(cookie, ";"), name);
    }
  }

  lemma TrimmedNone(entries: seq<string>, name: string)
    ensures FindEntry(Trimmed(entries), name + "=") == None <==> NoCookieMatch(entries, name)
  {
    forall j | 0 <= j < |entries|
      ensures Trimmed(entries)[j] == JsTrim(entries[j])
    {
      TrimmedAt(entries, j);
    }
  }

  /** The first matching entry wins, and its whole remainder after `name=`, further '=' included, is decoded. */
  lemma CookieFirstMatch(cookie: string, name: string, decode: string -> string, j: nat)
    requires cookie != [] && j < |Split(cookie, ";")|
    requires StartsWith(JsTrim(Split(cookie, ";")[j]), name + "=")
    requires forall k :: 0 <= k < j ==> !StartsWith(JsTrim(Split(cookie, ";")[k]), name + "=")
    ensures CookieValue(cookie, name, decode) == Some(decode(JsTrim(Split(cookie, ";")[j])[|name| + 1..]))
  {
    var entries := Split(cookie, ";");
    forall k | 0 <= k <= j
      ensures Trimmed(entries)[k] == JsTrim(entries[k])
    {
      TrimmedAt(entries, k);
    }
    FindEntryFirst(Trimmed(entries), name + "=", j);
  }

  /** A cookie whose name merely starts with `name` is not matched. */
  lemma LongerNameNotMatched(entry: string, name: string, more: string)
    requires entry == name + more && more != [] && more[0] != '='
    ensures !StartsWith(entry, name + "=")
  {
    assert entry[|name|] == more[0];
    assert (name + "=")[|name|] == '=';
  }

  /** Trimming drops the space that follows ';' in document.cookie. */
  lemma TrimAfterSeparator(e: string)
    requires e != [] && !IsJsSpace(e[0]) && !IsJsSpace(e[|e| - 1])
    ensures JsTrim(" " + e) == e
  {
    assert (" " + e)[1..] == e;
    assert TrimStart(" " + e, IsJsSpace) == TrimStart(e, IsJsSpace);
  }

  /** `a;` followed by an entry without ';' splits into those two entries. */
  lemma TwoCookieEntries(a: string, e: string)
    requires Lacks(a, ';') && Lacks(e, ';')
    ensures Split(a + ";" + e, ";") == [a, e]
  {
    forall i | 0 <= i < |a|
      ensures !StartsWith((a + ";" + e)[i..], ";")
    {
      assert (a + ";" + e)[i] == a[i];
    }
    SplitAfterPiece(a, ";", e);
    forall i | 0 <= i < |e|
      ensures !StartsWith(e[i..], ";")
    {
      assert e[i..][0] == e[i];
    }
    SplitWithoutSeparator(e, ";");
  }

  lemma CookieRegroup(a: string, name: string, v: string)
    ensures a + "; " + name + "=" + v == a + ";" + (" " + (name + "=" + v))
  {
  }

  /**
   * In `a; name=v` with `a` another cookie, getCookie finds the second entry
   * and hands the whole of `v` to the decoder.
   */
  lemma GetCookieSecondEntry(a: string, name: string, v: string, decode: string -> string)
    requires Lacks(a, ';') && !StartsWith(JsTrim(a), name + "=")
    requires name != [] && !IsJsSpace(name[0])
    requires v != [] && !IsJsSpace(v[|v| - 1])
    requires Lacks(name, ';') && Lacks(v, ';')
    ensures CookieValue(a + "; " + name + "=" + v, name, decode) == Some(decode(v))
  {
    var e := name + "=" + v;
    CookieRegroup(a, name, v);
    LacksConcat(name, "=", ';');
    LacksConcat(e[..|name| + 1], v, ';');
    assert e == e[..|name| + 1] + v;
    LacksConcat(" ", e, ';');
    TwoCookieEntries(a, " " + e);
    assert e[0] == name[0] && e[|e| - 1] == v[|v| - 1];
    TrimAfterSeparator(e);
    assert e[..|name| + 1] == name + "=";
    CookieFirstMatch(a + ";" + (" " + e), name, decode, 1);
    assert e[|name| + 1..] == v;
  }

  const CsrfPrefix := "csrftoken="

  /** split('=')[1] with the '' fallback: the text between the first and second '='. */
  function TokenFromRow(row: string): string {
    var parts := Split(row, "=");
    if |parts| >= 2 then parts[1] else ""
  }

  /** getCsrfToken: split on the exact "; ", take the first csrftoken entry, and no decoding. */
  function CsrfToken(cookie: string): string {
    match FindEntry(Split(cookie, "; "), CsrfPrefix)
    case None => ""
    case Some(row) => TokenFromRow(row)
  }

  /** With no entry starting with csrftoken= the token is ''. */
  lemma CsrfTokenMissing(cookie: string)
    requires forall j :: 0 <= j < |Split(cookie, "; ")| ==> !StartsWith(Split(cookie, "; ")[j], CsrfPrefix)
    ensures CsrfToken(cookie) == ""
  {
  }

  /** Splitting `csrftoken=` + rest on '=' puts the name first and the pieces of rest after it. */
  lemma CsrfRowSplit(rest: string)
    ensures Split(CsrfPrefix + rest, "=") == ["csrftoken"] + Split(rest, "=")
  {
    var n := "csrftoken";
    assert CsrfPrefix + rest == n + "=" + rest;
    forall i | 0 <= i < |n|
      ensures !StartsWith((n + "=" + rest)[i..], "=")
    {
      assert (n + "=" + rest)[i] == n[i];
    }
    SplitAfterPiece(n, "=", rest);
  }

  /** A value without '=' is returned whole. */
  lemma TokenFromRowPlain(v: string)
    requires forall i :: 0 <= i < |v| ==> v[i] != '='
    ensures TokenFromRow(CsrfPrefix + v) == v
  {
    CsrfRowSplit(v);
    SplitWithoutSeparator(v, "=");
  }

  /** A value containing '=' is cut at it. */
  lemma TokenFromRowCut(a: string, b: string)
    requires forall i :: 0 <= i < |a| ==> a[i] != '='
    ensures TokenFromRow(CsrfPrefix + a + "=" + b) == a
  {
    assert CsrfPrefix + a + "=" + b == CsrfPrefix + (a + "=" + b);
    CsrfRowSplit(a + "=" + b);
    forall i | 0 <= i < |a|
      ensures !StartsWith((a + "=" + b)[i..], "=")
    {
      assert (a + "=" + b)[i] == a[i];
    }
    SplitAfterPiece(a, "=", b);
  }

  /** The token of the first csrftoken entry is what the cookie yields, and an empty value gives ''. */
  lemma CsrfTokenOfFirstEntry(cookie: string, j: nat, v: string)
    requires j < |Split(cookie, "; ")| && Split(cookie, "; ")[j] == CsrfPrefix + v
    requires forall k :: 0 <= k < j ==> !StartsWith(Split(cookie, "; ")[k], CsrfPrefix)
    requires forall i :: 0 <= i < |v| ==> v[i] != '='
    ensures CsrfToken(cookie) == v
  {
    var entries := Split(cookie, "; ");
    FindEntryFirst(entries, CsrfPrefix, j);
    TokenFromRowPlain(v);
  }

  /**
   * Entries are split only on the exact "; ": after a bare ';' the csrftoken
   * cookie is part of the previous entry and is not found.
   */
  lemma CsrfNeedsSpace(a: string, v: string)
    requires forall i :: 0 <= i < |a| ==> a[i] != ';' && a[i] != ' '
    requires forall i :: 0 <= i < |v| ==> v[i] != ';' && v[i] != ' '
    requires !StartsWith(a + ";" + CsrfPrefix + v, CsrfPrefix)
    ensures CsrfToken(a + ";" + CsrfPrefix + v) == ""
  {
    var s := a + ";" + CsrfPrefix + v;
    forall i | 0 <= i < |s|
      ensures !StartsWith(s[i..], "; ")
    {
      if i + 1 < |s| {
        assert s[i + 1] != ' ' by {
          if i + 1 < |a| {
            assert s[i + 1] == a[i + 1];
          } else if i + 1 == |a| {
            assert s[i + 1] == ';';
          } else if i + 1 < |a| + 1 + |CsrfPrefix| {
            assert s[i + 1] == CsrfPrefix[i - |a|];
          } else {
            assert s[i + 1] == v[i - |a| - |CsrfPrefix|];
          }
        }
        assert s[i..][1] == s[i + 1];
      }
    }
    SplitWithoutSeparator(s, "; ");
  }
}
