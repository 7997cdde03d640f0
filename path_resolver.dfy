/**
 * Config-path templates and path strings: `~` and the Windows `%...%` placeholders are replaced by
 * directories under the user's home, backslashes become forward slashes, and paths are split and
 * joined at `/`.  The platform and home directory are cached in module state once initialised.
 */
module PathResolver {
  import opened Wrappers
  import opened Strings
  import opened Types

  /** `s.replace(/\\/g, '/')`. */
  function NormalizePath(s: string): (r: string)
    ensures |r| == |s|
    ensures '\\' !in r
    ensures forall i :: 0 <= i < |s| ==> r[i] == if s[i] == '\\' then '/' else s[i]
  {
    ReplaceChars(s, {'\\'}, '/')
  }

  lemma NormalizePathIdempotent(s: string)
    ensures NormalizePath(NormalizePath(s)) == NormalizePath(s)
  {
  }

  /** A path with no backslash is already normal. */
  lemma NormalizePathNoBackslash(s: string)
    requires '\\' !in s
    ensures NormalizePath(s) == s
  {
  }

  lemma NormalizePathConcat(a: string, b: string)
    ensures NormalizePath(a + b) == NormalizePath(a) + NormalizePath(b)
  {
    var l, r := NormalizePath(a + b), NormalizePath(a) + NormalizePath(b);
    assert |l| == |r|;
    forall i | 0 <= i < |l| ensures l[i] == r[i] {
      if i < |a| { assert (a + b)[i] == a[i]; } else { assert (a + b)[i] == b[i - |a|]; }
    }
  }

  /** `s.replace(/^~/, home)`. */
  function ReplaceLeadingTilde(s: string, home: string): (r: string)
  {
    if |s| > 0 && s[0] == '~' then home + s[1..] else s
  }

  predicate IsAsciiLetter(c: char)
  {
    'a' <= c <= 'z' || 'A' <= c <= 'Z'
  }

  function AsciiUpper(c: char): char
  {
    if 'a' <= c <= 'z' then (c as int - 32) as char else c
  }

  /**
   * Whether `c` matches the pattern character `p` under a regular expression's `i` flag; `p` is
   * ASCII, and a non-ASCII character never matches an ASCII one in non-Unicode mode.
   */
  predicate CharMatchCI(c: char, p: char)
  {
    c == p || (IsAsciiLetter(p) && IsAsciiLetter(c) && AsciiUpper(c) == AsciiUpper(p))
  }

  predicate MatchesAt(s: string, i: nat, pat: string)
  {
    i + |pat| <= |s| && forall k :: 0 <= k < |pat| ==> CharMatchCI(s[i + k], pat[k])
  }

  /**
   * `s.replace(/pat/gi, repl)` for a literal pattern: scan left to right; each match is replaced and
   * scanning resumes after it.
   */
  function ReplaceAllCI(s: string, pat: string, repl: string): string
    requires |pat| > 0
    decreases |s|
  {
    if |s| < |pat| then s
    else if MatchesAt(s, 0, pat) then repl + ReplaceAllCI(s[|pat|..], pat, repl)
    else [s[0]] + ReplaceAllCI(s[1..], pat, repl)
  }

  /** A match at the front is replaced, and replacement continues after it. */
  lemma ReplaceAllCIMatch(m: string, rest: string, pat: string, repl: string)
    requires |pat| > 0 && MatchesAt(m, 0, pat) && |m| == |pat|
    ensures ReplaceAllCI(m + rest, pat, repl) == repl + ReplaceAllCI(rest, pat, repl)
  {
    assert (m + rest)[|pat|..] == rest;
    assert MatchesAt(m + rest, 0, pat) by {
      forall k | 0 <= k < |pat| ensures CharMatchCI((m + rest)[k], pat[k]) { assert (m + rest)[k] == m[k]; }
    }
  }

  /** Text without the pattern's first character passes through unchanged and does not hide a match. */
  lemma {:induction false} ReplaceAllCISkip(a: string, rest: string, pat: string, repl: string)
    requires |pat| > 0 && !IsAsciiLetter(pat[0]) && pat[0] !in a
    ensures ReplaceAllCI(a + rest, pat, repl) == a + ReplaceAllCI(rest, pat, repl)
    decreases |a|
  {
    if a != [] {
      var s := a + rest;
      assert s[0] == a[0] && s[1..] == a[1..] + rest;
      assert !CharMatchCI(s[0], pat[0]);
      ReplaceAllCISkip(a[1..], rest, pat, repl);
    } else {
      assert a + rest == rest;
    }
  }

  /** Without the pattern's first character, nothing is replaced. */
  lemma ReplaceAllCINone(s: string, pat: string, repl: string)
    requires |pat| > 0 && !IsAsciiLetter(pat[0]) && pat[0] !in s
    ensures ReplaceAllCI(s, pat, repl) == s
  {
    ReplaceAllCISkip(s, [], pat, repl);
    assert s + [] == s;
  }

  const APPDATA: string := "%APPDATA%"
  const LOCALAPPDATA: string := "%LOCALAPPDATA%"
  const USERPROFILE: string := "%USERPROFILE%"

  /** The Windows placeholders, in the order they are replaced. */
  function ExpandWindows(s: string, home: string): string
  {
    var r1 := ReplaceAllCI(s, APPDATA, home + "/AppData/Roaming");
    var r2 := ReplaceAllCI(r1, LOCALAPPDATA, home + "/AppData/Local");
    ReplaceAllCI(r2, USERPROFILE, home)
  }

  /** What `resolvePath` computes for a platform and a home directory. */
  function Resolve(platform: Platform, home: string, template: string): string
  {
    var t := ReplaceLeadingTilde(template, home);
    NormalizePath(if platform == Win32 then ExpandWindows(t, home) else t)
  }

  /** Off Windows, placeholders are left alone: only a leading `~` and the separators change. */
  lemma ResolveElsewhere(platform: Platform, home: string, template: string)
    requires platform != Win32
    ensures Resolve(platform, home, template) == NormalizePath(ReplaceLeadingTilde(template, home))
  {
  }

  /** A `~` is expanded only in first position. */
  lemma ResolveTilde(platform: Platform, home: string, rest: string)
    requires platform != Win32
    ensures Resolve(platform, home, "~" + rest) == NormalizePath(home + rest)
    ensures forall t :: |t| > 0 && t[0] != '~' ==> Resolve(platform, home, t) == NormalizePath(t)
  {
    assert ("~" + rest)[1..] == rest;
  }

  /** A template with no placeholder, `~` or backslash resolves to itself on every platform. */
  lemma ResolvePlain(platform: Platform, home: string, t: string)
    requires '%' !in t && '\\' !in t && (t == [] || t[0] != '~')
    ensures Resolve(platform, home, t) == t
  {
    ReplaceAllCINone(t, APPDATA, home + "/AppData/Roaming");
    ReplaceAllCINone(t, LOCALAPPDATA, home + "/AppData/Local");
    ReplaceAllCINone(t, USERPROFILE, home);
  }

  // ---------------------------------------------------------------------------------------
  // Templates made of text and placeholders.

  /** The three Windows placeholders, with the pattern each is matched by and what it becomes. */
  datatype Placeholder = AppData | LocalAppData | UserProfile
  {
    function Pattern(): string
    {
      match this
      case AppData => APPDATA
      case LocalAppData => LOCALAPPDATA
      case UserProfile => USERPROFILE
    }

    function Value(home: string): string
    {
      match this
      case AppData => home + "/AppData/Roaming"
      case LocalAppData => home + "/AppData/Local"
      case UserProfile => home
    }
  }

  /** `%`, then capital letters, then `%`. */
  predicate Shaped(p: string)
  {
    |p| >= 3 && p[0] == '%' && p[|p| - 1] == '%' && forall k :: 0 < k < |p| - 1 ==> 'A' <= p[k] <= 'Z'
  }

  /** Each pattern is shaped so; the three differ in their first letter. */
  lemma PatternShape(v: Placeholder)
    ensures Shaped(v.Pattern())
    ensures forall u :: u != v ==> u.Pattern()[1] != v.Pattern()[1]
  {
  }

  /** A placeholder as written: `%`, the pattern's letters in either case, `%`. */
  lemma WrittenShape(u: Placeholder, w: string)
    requires |w| == |u.Pattern()| && MatchesAt(w, 0, u.Pattern())
    ensures |w| >= 3 && w[0] == '%' && w[|w| - 1] == '%'
    ensures forall k :: 0 < k < |w| - 1 ==> IsAsciiLetter(w[k]) && AsciiUpper(w[k]) == u.Pattern()[k]
  {
    PatternShape(u);
    var p := u.Pattern();
    assert CharMatchCI(w[0], p[0]) && CharMatchCI(w[|w| - 1], p[|w| - 1]);
    forall k | 0 < k < |w| - 1
      ensures IsAsciiLetter(w[k]) && AsciiUpper(w[k]) == p[k]
    {
      assert CharMatchCI(w[k], p[k]);
    }
  }

  /** A piece of a template: literal text, or a placeholder as written, in any letter case. */
  datatype Piece = Text(text: string) | Var(v: Placeholder, written: string)

  predicate PieceOk(p: Piece)
  {
    match p
    case Text(t) => '%' !in t
    case Var(v, w) => |w| == |v.Pattern()| && MatchesAt(w, 0, v.Pattern())
  }

  predicate HasNonLetter(t: string)
  {
    exists j :: 0 <= j < |t| && !IsAsciiLetter(t[j])
  }

  /**
   * A template the placeholders can be read off: text holds no `%`, and text that follows a
   * placeholder and is not the last piece holds some character other than an ASCII letter (so no
   * `%NAME%` can be formed from a placeholder's closing `%`, that text and the next placeholder).
   */
  predicate Template(ps: seq<Piece>)
  {
    (forall i :: 0 <= i < |ps| ==> PieceOk(ps[i]))
    && (forall i :: 0 <= i < |ps| - 2 && ps[i].Var? && ps[i + 1].Text? ==> HasNonLetter(ps[i + 1].text))
  }

  function PieceText(p: Piece): string
  {
    match p
    case Text(t) => t
    case Var(_, w) => w
  }

  /** The template as written. */
  function Written(ps: seq<Piece>): string
  {
    if ps == [] then [] else PieceText(ps[0]) + Written(ps[1..])
  }

  /** The template with every placeholder replaced by its directory. */
  function Expanded(ps: seq<Piece>, home: string): string
  {
    if ps == [] then []
    else (match ps[0] case Text(t) => t case Var(v, _) => v.Value(home)) + Expanded(ps[1..], home)
  }

  /** One pass of replacement: the placeholder `v` becomes the text `repl`. */
  function SubstPiece(p: Piece, v: Placeholder, repl: string): Piece
  {
    if p.Var? && p.v == v then Text(repl) else p
  }

  function Subst(ps: seq<Piece>, v: Placeholder, repl: string): (r: seq<Piece>)
    ensures |r| == |ps|
    ensures forall i :: 0 <= i < |ps| ==> r[i] == SubstPiece(ps[i], v, repl)
  {
    if ps == [] then [] else [SubstPiece(ps[0], v, repl)] + Subst(ps[1..], v, repl)
  }

  /** One scanning step: without a match at the front, the first character is kept. */
  lemma ReplaceAllCIStep(c: char, y: string, pat: string, repl: string)
    requires |pat| > 0 && !MatchesAt([c] + y, 0, pat)
    ensures ReplaceAllCI([c] + y, pat, repl) == [c] + ReplaceAllCI(y, pat, repl)
  {
    var s := [c] + y;
    assert s[0] == c && s[1..] == y;
  }

  /**
   * After a placeholder's closing `%` no pattern can start when the text that follows holds no
   * `%` and either holds a non-letter or ends the string.
   */
  lemma NoMatchThroughText(t: string, y: string, v: Placeholder)
    requires '%' !in t && (HasNonLetter(t) || y == [])
    ensures !MatchesAt("%" + t + y, 0, v.Pattern())
  {
    var p := v.Pattern();
    var s := "%" + t + y;
    PatternShape(v);
    if |s| >= |p| {
      var k: nat := |p| - 1;
      if y != [] {
        var j :| 0 <= j < |t| && !IsAsciiLetter(t[j]);
        if j + 1 < |p| - 1 {
          k := j + 1;
        }
      }
      assert s[k] == t[k - 1];
      assert !CharMatchCI(s[k], p[k]);
    }
  }

  /** What may follow a placeholder in a template starts no match at its closing `%`. */
  lemma FollowNoMatch(rest: seq<Piece>, v: Placeholder)
    requires rest != [] ==> PieceOk(rest[0]) && (rest[0].Text? && |rest| > 1 ==> HasNonLetter(rest[0].text))
    ensures !MatchesAt("%" + Written(rest), 0, v.Pattern())
  {
    if rest != [] {
      if rest[0].Var? {
        FollowVar(rest, v);
      } else {
        FollowText(rest, v);
      }
    }
  }

  lemma FollowVar(rest: seq<Piece>, v: Placeholder)
    requires rest != [] && rest[0].Var? && PieceOk(rest[0])
    ensures !MatchesAt("%" + Written(rest), 0, v.Pattern())
  {
    var x := PieceText(rest[0]) + Written(rest[1..]);
    assert Written(rest) == x;
    WrittenShape(rest[0].v, rest[0].written);
    NoMatchBeforePercent(x, v);
  }

  lemma FollowText(rest: seq<Piece>, v: Placeholder)
    requires rest != [] && rest[0].Text? && PieceOk(rest[0]) && (|rest| > 1 ==> HasNonLetter(rest[0].text))
    ensures !MatchesAt("%" + Written(rest), 0, v.Pattern())
  {
    var y := Written(rest[1..]);
    assert Written(rest) == rest[0].text + y;
    if |rest| == 1 {
      assert rest[1..] == [];
    }
    NoMatchThroughText(rest[0].text, y, v);
    assert "%" + rest[0].text + y == "%" + Written(rest);
  }

  /** Two `%` in a row start no match: every pattern has a letter second. */
  lemma NoMatchBeforePercent(x: string, v: Placeholder)
    requires x != [] && x[0] == '%'
    ensures !MatchesAt("%" + x, 0, v.Pattern())
  {
    PatternShape(v);
    assert ("%" + x)[1] == '%';
    assert !CharMatchCI(("%" + x)[1], v.Pattern()[1]);
  }

  /** A placeholder other than the one being replaced is passed over whole. */
  lemma SkipOther(u: Placeholder, w: string, x: string, v: Placeholder, repl: string)
    requires u != v && |w| == |u.Pattern()| && MatchesAt(w, 0, u.Pattern())
    requires !MatchesAt("%" + x, 0, v.Pattern())
    ensures ReplaceAllCI(w + x, v.Pattern(), repl) == w + ReplaceAllCI(x, v.Pattern(), repl)
  {
    LettersThenPercent(u, w, x, v, repl);
    SplitWritten(u, w, x);
    OtherNoMatch(u, w, x, v);
    PassOver(w[0], w[1..|w| - 1], x, v.Pattern(), repl);
  }

  /** A character that starts no match, then text that passes through, pass through together. */
  lemma PassOver(c: char, mid: string, x: string, pat: string, repl: string)
    requires |pat| > 0 && !MatchesAt([c] + (mid + ("%" + x)), 0, pat)
    requires ReplaceAllCI(mid + ("%" + x), pat, repl) == mid + "%" + ReplaceAllCI(x, pat, repl)
    ensures ReplaceAllCI([c] + (mid + ("%" + x)), pat, repl) == [c] + mid + "%" + ReplaceAllCI(x, pat, repl)
  {
    ReplaceAllCIStep(c, mid + ("%" + x), pat, repl);
  }

  /** A written placeholder is its opening `%`, its letters and its closing `%`. */
  lemma SplitWritten(u: Placeholder, w: string, x: string)
    requires |w| == |u.Pattern()| && MatchesAt(w, 0, u.Pattern())
    ensures |w| >= 2
    ensures w == [w[0]] + w[1..|w| - 1] + "%"
    ensures w + x == [w[0]] + (w[1..|w| - 1] + ("%" + x))
  {
    WrittenShape(u, w);
    assert w == [w[0]] + w[1..|w| - 1] + [w[|w| - 1]];
  }

  /** The written form of another placeholder starts no match of this one. */
  lemma OtherNoMatch(u: Placeholder, w: string, x: string, v: Placeholder)
    requires u != v && |w| == |u.Pattern()| && MatchesAt(w, 0, u.Pattern())
    ensures !MatchesAt(w + x, 0, v.Pattern())
  {
    PatternShape(v);
    WrittenShape(u, w);
    assert (w + x)[1] == w[1] && AsciiUpper(w[1]) == u.Pattern()[1] != v.Pattern()[1];
    assert !CharMatchCI((w + x)[1], v.Pattern()[1]);
  }

  /** The letters and the closing `%` of a written placeholder pass through unchanged. */
  lemma LettersThenPercent(u: Placeholder, w: string, x: string, v: Placeholder, repl: string)
    requires |w| == |u.Pattern()| && MatchesAt(w, 0, u.Pattern())
    requires !MatchesAt("%" + x, 0, v.Pattern())
    ensures |w| >= 2
    ensures ReplaceAllCI(w[1..|w| - 1] + ("%" + x), v.Pattern(), repl)
      == w[1..|w| - 1] + "%" + ReplaceAllCI(x, v.Pattern(), repl)
  {
    PatternShape(v);
    WrittenShape(u, w);
    var mid := w[1..|w| - 1];
    assert forall k :: 0 <= k < |mid| ==> mid[k] == w[k + 1];
    LettersPass(mid, x, v.Pattern(), repl);
  }

  /** Text without `%`, then a `%` that starts no match, pass through a pattern that starts with `%`. */
  lemma LettersPass(mid: string, x: string, pat: string, repl: string)
    requires |pat| > 0 && pat[0] == '%' && '%' !in mid && !MatchesAt("%" + x, 0, pat)
    ensures ReplaceAllCI(mid + ("%" + x), pat, repl) == mid + "%" + ReplaceAllCI(x, pat, repl)
  {
    ReplaceAllCISkip(mid, "%" + x, pat, repl);
    assert "%" + x == ['%'] + x;
    ReplaceAllCIStep('%', x, pat, repl);
  }

  lemma TemplateTail(ps: seq<Piece>)
    requires Template(ps) && ps != []
    ensures Template(ps[1..])
  {
    var r := ps[1..];
    assert forall i :: 0 <= i < |r| ==> r[i] == ps[i + 1];
  }

  /**
   * One `replace(/%NAME%/gi, repl)` over a template replaces exactly the occurrences of that
   * placeholder, wherever they are and however many there are, and keeps everything else.
   */
  lemma {:induction false} ReplacePass(ps: seq<Piece>, v: Placeholder, repl: string)
    requires Template(ps)
    ensures ReplaceAllCI(Written(ps), v.Pattern(), repl) == Written(Subst(ps, v, repl))
    decreases |ps|
  {
    PatternShape(v);
    if ps != [] {
      var rest := ps[1..];
      TemplateTail(ps);
      ReplacePass(rest, v, repl);
      assert Subst(ps, v, repl)[1..] == Subst(rest, v, repl);
      var pat := v.Pattern();
      match ps[0]
      case Text(t) =>
        ReplaceAllCISkip(t, Written(rest), pat, repl);
      case Var(u, w) =>
        if u == v {
          ReplaceAllCIMatch(w, Written(rest), pat, repl);
        } else {
          FollowNoMatch(rest, v);
          SkipOther(u, w, Written(rest), v, repl);
        }
    }
  }

  /** A pass whose new text holds no `%` and a non-letter leaves a template. */
  lemma SubstTemplate(ps: seq<Piece>, v: Placeholder, repl: string)
    requires Template(ps) && '%' !in repl && HasNonLetter(repl)
    ensures Template(Subst(ps, v, repl))
  {
  }

  /** The three passes together put each placeholder's directory in its place. */
  lemma {:induction false} SubstAll(ps: seq<Piece>, home: string)
    ensures Written(Subst(Subst(Subst(ps, AppData, AppData.Value(home)), LocalAppData, LocalAppData.Value(home)),
      UserProfile, home)) == Expanded(ps, home)
    decreases |ps|
  {
    if ps != [] {
      var s1 := Subst(ps, AppData, AppData.Value(home));
      var s2 := Subst(s1, LocalAppData, LocalAppData.Value(home));
      var s3 := Subst(s2, UserProfile, home);
      SubstAll(ps[1..], home);
      assert s1[1..] == Subst(ps[1..], AppData, AppData.Value(home));
      assert s2[1..] == Subst(s1[1..], LocalAppData, LocalAppData.Value(home));
      assert s3[1..] == Subst(s2[1..], UserProfile, home);
    }
  }

  /** The placeholder chain `resolvePath` applies on Windows, on a template of pieces. */
  lemma ExpandTemplate(ps: seq<Piece>, home: string)
    requires Template(ps) && '%' !in home
    ensures ExpandWindows(Written(ps), home) == Expanded(ps, home)
  {
    var roaming, local := AppData.Value(home), LocalAppData.Value(home);
    assert roaming[|home|] == '/' && local[|home|] == '/';
    ReplacePass(ps, AppData, roaming);
    var s1 := Subst(ps, AppData, roaming);
    SubstTemplate(ps, AppData, roaming);
    ReplacePass(s1, LocalAppData, local);
    var s2 := Subst(s1, LocalAppData, local);
    SubstTemplate(s1, LocalAppData, local);
    ReplacePass(s2, UserProfile, home);
    SubstAll(ps, home);
  }

  /**
   * On Windows a template of text and placeholders, in any letter case, anywhere and any number
   * of times, resolves to the text with every placeholder replaced by its directory.
   */
  lemma ResolveTemplate(ps: seq<Piece>, home: string)
    requires Template(ps) && '%' !in home && (Written(ps) == [] || Written(ps)[0] != '~')
    ensures Resolve(Win32, home, Written(ps)) == NormalizePath(Expanded(ps, home))
  {
    ExpandTemplate(ps, home);
  }

  /** The same with a leading `~`, which becomes the home directory first. */
  lemma ResolveTemplateTilde(ps: seq<Piece>, home: string)
    requires Template(ps) && '%' !in home
    ensures Resolve(Win32, home, "~" + Written(ps)) == NormalizePath(home + Expanded(ps, home))
  {
    var qs := [Text(home)] + ps;
    assert qs[1..] == ps;
    assert Template(qs) by {
      assert forall i :: 1 <= i < |qs| ==> qs[i] == ps[i - 1];
    }
    assert ("~" + Written(ps))[1..] == Written(ps);
    ExpandTemplate(qs, home);
  }

  /** A single placeholder anywhere between two stretches of text without `%`. */
  lemma ResolveOne(a: string, v: Placeholder, m: string, b: string, home: string)
    requires |m| == |v.Pattern()| && MatchesAt(m, 0, v.Pattern())
    requires '%' !in a && '%' !in b && '%' !in home && (a == [] || a[0] != '~')
    ensures Resolve(Win32, home, a + m + b) == NormalizePath(a + v.Value(home) + b)
  {
    var ps := [Text(a), Var(v, m), Text(b)];
    var p1, p2 := ps[1..], ps[1..][1..];
    assert p1 == [Var(v, m), Text(b)] && p2 == [Text(b)] && p2[1..] == [];
    assert Written(p2) == b && Expanded(p2, home) == b;
    assert Written(p1) == m + b && Expanded(p1, home) == v.Value(home) + b;
    assert Written(ps) == a + m + b && Expanded(ps, home) == a + v.Value(home) + b;
    WrittenShape(v, m);
    assert (a + m + b)[0] != '~' by {
      if a == [] { assert (a + m + b)[0] == m[0]; }
    }
    ResolveTemplate(ps, home);
  }

  // ---------------------------------------------------------------------------------------
  // Splitting and joining.

  /** `dirname`: `.` when there is no `/`, else everything before the last `/`. */
  function Dirname(path: string): (d: string)
    ensures '/' !in NormalizePath(path) ==> d == "."
    ensures '\\' !in d
  {
    var n := NormalizePath(path);
    var i := LastIndexOf(n, '/');
    if i == -1 then "." else n[..i]
  }

  /** `basename`: everything after the last `/`. */
  function Basename(path: string): (b: string)
    ensures '/' !in b && '\\' !in b
    ensures '/' !in NormalizePath(path) ==> b == NormalizePath(path)
  {
    var n := NormalizePath(path);
    var i := LastIndexOf(n, '/');
    n[i + 1..]
  }

  /** A path with a separator is its directory, a `/`, and its base name. */
  lemma DirnameBasename(path: string)
    requires '/' in NormalizePath(path)
    ensures Dirname(path) + "/" + Basename(path) == NormalizePath(path)
  {
    var n := NormalizePath(path);
    var i := LastIndexOf(n, '/');
    assert n == n[..i] + "/" + n[i + 1..];
  }

  /** Directory and file of a name placed in a directory (no separator in the name). */
  lemma DirnameBasenameOfJoin(dir: string, name: string)
    requires '\\' !in dir && '/' !in name && '\\' !in name
    ensures Dirname(dir + "/" + name) == dir
    ensures Basename(dir + "/" + name) == name
  {
    var p := dir + "/" + name;
    NormalizePathNoBackslash(p);
    var i := LastIndexOf(p, '/');
    assert p[|dir|] == '/';
    assert i == |dir|;
    assert p[..i] == dir && p[i + 1..] == name;
  }

  /** `s.replace(/\/+$/, '')`. */
  function StripTrailingSlashes(s: string): (r: string)
    ensures |r| <= |s| && r == s[..|r|] && (r == [] || r[|r| - 1] != '/')
    ensures forall k :: |r| <= k < |s| ==> s[k] == '/'
  {
    if s != [] && s[|s| - 1] == '/' then StripTrailingSlashes(s[..|s| - 1]) else s
  }

  /** `s.replace(/^\/+/, '')`. */
  function StripLeadingSlashes(s: string): (r: string)
    ensures |r| <= |s| && r == s[|s| - |r|..] && (r == [] || r[0] != '/')
    ensures forall k :: 0 <= k < |s| - |r| ==> s[k] == '/'
  {
    if s != [] && s[0] == '/' then StripLeadingSlashes(s[1..]) else s
  }

  /** Each part as `joinPaths` trims it: the first only at its end, the others at both ends. */
  function JoinPart(part: string, first: bool): string
  {
    if first then StripTrailingSlashes(part) else StripTrailingSlashes(StripLeadingSlashes(part))
  }

  function JoinParts(parts: seq<string>, first: bool): seq<string>
  {
    if parts == [] then [] else [JoinPart(parts[0], first)] + JoinParts(parts[1..], false)
  }

  /** `joinPaths(...parts)`. */
  function JoinPaths(parts: seq<string>): string
  {
    Join(JoinParts(parts, true), "/")
  }

  /** Two parts are joined by exactly one `/`, whatever slashes they carried at the seam. */
  lemma JoinPathsTwo(a: string, b: string)
    ensures JoinPaths([a, b]) == StripTrailingSlashes(a) + "/" + StripTrailingSlashes(StripLeadingSlashes(b))
  {
    JoinPartsTwo(a, b);
    JoinTwo(JoinPart(a, true), JoinPart(b, false), "/");
  }

  lemma JoinPartsTwo(a: string, b: string)
    ensures JoinParts([a, b], true) == [JoinPart(a, true), JoinPart(b, false)]
  {
    assert [a, b] == [a] + [b] && [b] == [b] + [];
    JoinPartsCons(a, [b], true);
    JoinPartsCons(b, [], false);
  }

  lemma JoinPartsCons(p: string, ps: seq<string>, first: bool)
    ensures JoinParts([p] + ps, first) == [JoinPart(p, first)] + JoinParts(ps, false)
  {
    assert ([p] + ps)[0] == p && ([p] + ps)[1..] == ps;
  }

  /** Joining a directory and a plain file name, then splitting the result, recovers both. */
  lemma JoinPathsSplit(dir: string, name: string)
    requires '\\' !in dir && '/' !in name && '\\' !in name
    ensures Dirname(JoinPaths([dir, name])) == StripTrailingSlashes(dir)
    ensures Basename(JoinPaths([dir, name])) == name
  {
    var d := StripTrailingSlashes(dir);
    assert StripLeadingSlashes(name) == name;
    assert StripTrailingSlashes(name) == name;
    JoinPathsTwo(dir, name);
    assert JoinPaths([dir, name]) == d + "/" + name;
    assert '\\' !in d by { assert d == dir[..|d|]; }
    DirnameBasenameOfJoin(d, name);
  }

  /**
   * The resolver's module state: the platform and home directory that `initPathResolver` caches.
   * Before initialisation the platform reads as `win32` and the home directory as empty.
   */
  class Resolver {
    var cachedPlatform: Option<Platform>
    var cachedHome: Option<string>

    constructor()
      ensures cachedPlatform == None && cachedHome == None
    {
      cachedPlatform := None;
      cachedHome := None;
    }

    /**
     * `initPathResolver`: `bridge` is the platform and home directory the main process reports,
     * or `None` when `window.electron` is absent, and then nothing is cached.
     */
    method Init(bridge: Option<(Platform, string)>)
      modifies this
      ensures bridge.Some? ==> cachedPlatform == Some(bridge.value.0) && cachedHome == Some(bridge.value.1)
      ensures bridge.None? ==> cachedPlatform == old(cachedPlatform) && cachedHome == old(cachedHome)
    {
      if bridge.Some? {
        cachedPlatform := Some(bridge.value.0);
        cachedHome := Some(bridge.value.1);
      }
    }

    function GetPlatform(): (p: Platform)
      reads this
      ensures cachedPlatform.None? ==> p == Win32
      ensures cachedPlatform.Some? ==> p == cachedPlatform.value
    {
      cachedPlatform.GetOr(Win32)
    }

    function Home(): string
      reads this
    {
      cachedHome.GetOr("")
    }

    /** `resolvePath`: a chain of replacements applied to `resolved` in turn. */
    method ResolvePath(template: string) returns (resolved: string)
      ensures resolved == Resolve(GetPlatform(), Home(), template)
      ensures '\\' !in resolved
    {
      var currentPlatform := GetPlatform();
      resolved := template;
      var home := Home();
      resolved := ReplaceLeadingTilde(resolved, home);
      if currentPlatform == Win32 {
        var appData := home + "/AppData/Roaming";
        resolved := ReplaceAllCI(resolved, APPDATA, appData);
        var localAppData := home + "/AppData/Local";
        resolved := ReplaceAllCI(resolved, LOCALAPPDATA, localAppData);
        resolved := ReplaceAllCI(resolved, USERPROFILE, home);
      }
      resolved := NormalizePath(resolved);
    }

    /** `getConfigPathForPlatform`: the resolved template of the current platform, if it has one. */
    method GetConfigPathForPlatform(platforms: Platforms) returns (path: Option<string>)
      ensures path.None? <==> platforms.For(GetPlatform()) in {None, Some("")}
      ensures path.Some? ==> path.value == Resolve(GetPlatform(), Home(), platforms.For(GetPlatform()).value)
    {
      var currentPlatform := GetPlatform();
      var pathTemplate := platforms.For(currentPlatform);
      if pathTemplate.None? || pathTemplate.value == "" {
        return None;
      }
      var r := ResolvePath(pathTemplate.value);
      return Some(r);
    }
  }

  /** The value `getConfigPathForPlatform` returns, as a function of the cached state. */
  function ConfigPathFor(platform: Platform, home: string, platforms: Platforms): (r: Option<string>)
    ensures r.None? <==> platforms.For(platform) in {None, Some("")}
  {
    match platforms.For(platform)
    case None => None
    case Some(t) => if t == "" then None else Some(Resolve(platform, home, t))
  }
}
