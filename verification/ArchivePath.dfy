/** Archive paths: which spellings are accepted, and how a path relates to its parents. */
module ArchivePath {
  import opened Outcomes
  import opened Splitting

  /** The path made of the first parts of s. */
  function Parent(s: string, end: nat): string
    requires 1 <= end <= |Split(s, '/')|
  {
    Join(Split(s, '/')[..end], '/')
  }

  /** How a parent of a path is made of one of the path without its first character. */
  lemma ParentSteps(s: string, end: nat)
    requires s != [] && 1 <= end <= |Split(s, '/')|
    ensures |Split(s, '/')| == |Split(s[1..], '/')| + if s[0] == '/' then 1 else 0
    ensures s[0] == '/' && end == 1 ==> Parent(s, end) == ""
    ensures s[0] == '/' && end > 1 ==> Parent(s, end) == ['/'] + Parent(s[1..], end - 1)
    ensures s[0] != '/' ==> Parent(s, end) == [s[0]] + Parent(s[1..], end)
  {
    hide Split, Join;
    var parts, rest := Split(s, '/'), Split(s[1..], '/');
    SplitSteps(s);
    if s[0] == '/' && end == 1 {
      assert parts[..1] == [""];
      JoinOne("");
    } else if s[0] == '/' {
      assert parts[..end] == [""] + rest[..end - 1];
      JoinEmptyFirst(rest[..end - 1]);
    } else {
      assert parts[..end] == [[s[0]] + rest[..end][0]] + rest[..end][1..];
      JoinLonger(s[0], rest[..end]);
    }
  }

  lemma SplitSteps(s: string)
    requires s != []
    ensures var rest := Split(s[1..], '/');
            Split(s, '/') == if s[0] == '/' then [""] + rest else [[s[0]] + rest[0]] + rest[1..]
  {
  }

  lemma JoinOne(part: string)
    ensures Join([part], '/') == part
  {
  }

  lemma JoinEmptyFirst(parts: seq<string>)
    requires parts != []
    ensures Join([""] + parts, '/') == ['/'] + Join(parts, '/')
  {
    assert ([""] + parts)[1..] == parts;
  }

  lemma JoinLonger(c: char, parts: seq<string>)
    requires parts != []
    ensures Join([[c] + parts[0]] + parts[1..], '/') == [c] + Join(parts, '/')
  {
    var longer := [[c] + parts[0]] + parts[1..];
    assert longer[1..] == parts[1..];
  }

  lemma WholeParent(s: string)
    ensures |Split(s, '/')| >= 1 && Parent(s, |Split(s, '/')|) == s
  {
    SplitThenJoin(s, '/');
    assert Split(s, '/')[..|Split(s, '/')|] == Split(s, '/');
  }

  lemma NoParts()
    ensures |Split("", '/')| == 1
  {
  }

  /** The parents of a path are the path itself and what stands before one of its
      slashes. */
  lemma {:induction false} ParentIsPrefix(s: string, end: nat)
    requires 1 <= end <= |Split(s, '/')|
    ensures var p := Parent(s, end);
            && p <= s && (end == |Split(s, '/')| ==> p == s) && (end < |Split(s, '/')| ==> |p| < |s| && s[|p|] == '/')
  {
    hide Split, Parent;
    NoParts();
    WholeParent(s);
    if s != [] && end < |Split(s, '/')| {
      ParentSteps(s, end);
      if s[0] != '/' {
        ParentIsPrefix(s[1..], end);
      } else if end > 1 {
        ParentIsPrefix(s[1..], end - 1);
      }
    }
  }

  lemma {:induction false} SlashIsParent(s: string, i: nat) returns (end: nat)
    requires i < |s| && s[i] == '/'
    ensures 1 <= end < |Split(s, '/')| && Parent(s, end) == s[..i]
  {
    hide Split, Parent;
    WholeParent(s[1..]);
    ParentSteps(s, 1);
    if i == 0 {
      end := 1;
    } else {
      end := SlashIsParent(s[1..], i - 1);
      end := if s[0] == '/' then end + 1 else end;
      ParentSteps(s, end);
      assert s[..i] == [s[0]] + s[1..][..i - 1];
    }
  }

  // ---------------------------------------------------------------- case folding

  /** Accepted paths are ASCII, where case folding is lower-casing. */
  function Lower(c: char): (l: char)
    ensures (l == '/') == (c == '/')
  {
    if 'A' <= c <= 'Z' then c + 32 as char else c
  }

  function Fold(s: string): (f: string)
    ensures |f| == |s| && forall i :: 0 <= i < |s| ==> f[i] == Lower(s[i])
  {
    seq(|s|, i requires 0 <= i < |s| => Lower(s[i]))
  }

  /** Two texts fold together exactly if they are equal but for the case of letters from A
      to Z. */
  lemma FoldsTogether(s: string, t: string)
    ensures Fold(s) == Fold(t) <==>
      && |s| == |t|
      && forall i :: 0 <= i < |s| ==>
           || s[i] == t[i]
           || ('A' <= s[i] <= 'Z' && t[i] as int == s[i] as int + 32)
           || ('A' <= t[i] <= 'Z' && s[i] as int == t[i] as int + 32)
  {
    forall i | 0 <= i < |s| && i < |t|
      ensures Lower(s[i]) == Lower(t[i]) <==>
        || s[i] == t[i]
        || ('A' <= s[i] <= 'Z' && t[i] as int == s[i] as int + 32)
        || ('A' <= t[i] <= 'Z' && s[i] as int == t[i] as int + 32)
    {
    }
    if Fold(s) == Fold(t) {
      forall i | 0 <= i < |s| ensures Lower(s[i]) == Lower(t[i]) { assert Fold(s)[i] == Fold(t)[i]; }
    }
  }

  // ---------------------------------------------------------------- accepted spellings

  predicate StartChar(c: char) {
    'A' <= c <= 'Z' || 'a' <= c <= 'z' || '0' <= c <= '9' || c in "_@+-"
  }

  predicate Segment(s: string) {
    s != [] && StartChar(s[0]) && forall i :: 0 <= i < |s| ==> StartChar(s[i]) || s[i] == '.'
  }

  predicate CleanParts(parts: seq<string>) {
    |parts| <= 32 && forall i :: 0 <= i < |parts| ==> Segment(parts[i])
  }

  /** A clean path: at most 32 segments, none of them hidden, relative or empty. */
  predicate Clean(name: string) {
    |name| <= 1024 && CleanParts(Split(name, '/'))
  }

  predicate StartsWith(s: string, prefix: string) {
    prefix <= s
  }

  /** The accepted spellings of a raw path: a leading "./" and, on a directory, one
      trailing slash are dropped; nothing else is normalized. */
  function CleanPath(raw: string, directory: bool): Option<string> {
    if !(0 < |raw| <= 1024) then None
    else
      var name := if StartsWith(raw, "./") then raw[2..] else raw;
      if directory && (name == "" || name == ".") then Some("")
      else
        var bare := if directory && name != "" && name[|name| - 1] == '/' then name[..|name| - 1] else name;
        if CleanParts(Split(bare, '/')) then Some(bare) else None
  }

  /** Which raw spellings stand for a name, read backwards: a name is clean, or the root
      of a directory listing, and has at most four spellings. */
  predicate Spells(raw: string, directory: bool, name: string) {
    && 0 < |raw| <= 1024
    && if name == "" then directory && raw in ["./", ".", "./."]
       else Clean(name) && (raw in [name, "./" + name] || (directory && raw in [name + "/", "./" + name + "/"]))
  }

  lemma {:induction false} TrailingSlash(s: string)
    requires s != [] && s[|s| - 1] == '/'
    ensures Split(s, '/')[|Split(s, '/')| - 1] == ""
  {
    if |s| > 1 {
      TrailingSlash(s[1..]);
      if s[0] != '/' {
        assert |Split(s[1..], '/')| > 1 by {
          var _ := SlashIsParent(s[1..], |s| - 2);
        }
      }
    } else {
      assert Split(s[1..], '/') == [""];
    }
  }

  lemma LeadingDot(s: string)
    requires s != [] && (s[0] == '.' || s[0] == '/')
    ensures !CleanParts(Split(s, '/'))
  {
    assert Split(s, '/')[0] == [] || Split(s, '/')[0][0] == '.';
    assert !Segment(Split(s, '/')[0]);
  }

  lemma EmptyIsNotClean()
    ensures Split("", '/') == [""] && !CleanParts(Split("", '/'))
  {
    assert !Segment(Split("", '/')[0]);
  }

  /** A clean name starts and ends with something else than a dot segment or a slash. */
  lemma CleanEnds(name: string)
    requires CleanParts(Split(name, '/'))
    ensures name != "" && name[0] != '.' && name[0] != '/' && name[|name| - 1] != '/'
  {
    EmptyIsNotClean();
    assert !Segment("");
    if name[0] == '.' || name[0] == '/' {
      LeadingDot(name);
    } else if name[|name| - 1] == '/' {
      TrailingSlash(name);
    }
  }

  lemma Halves(s: string, t: string)
    ensures (s + t)[..|s|] == s && (s + t)[|s|..] == t
  {
  }

  lemma SpellingIsAccepted(raw: string, directory: bool, name: string)
    requires Spells(raw, directory, name)
    ensures CleanPath(raw, directory) == Some(name)
  {
    hide Split, CleanParts;
    if name == "" {
      assert "./"[2..] == "" && "./."[2..] == ".";
    } else {
      CleanEnds(name);
      var bare := if raw == name || raw == name + "/" then raw else raw[2..];
      assert "./" + name + "/" == "./" + (name + "/");
      Halves("./", bare);
      Halves(name, "/");
      assert bare == name || (directory && bare == name + "/");
      assert bare[0] == name[0];
    }
  }

  lemma AcceptedIsSpelling(raw: string, directory: bool, name: string)
    requires CleanPath(raw, directory) == Some(name)
    ensures Spells(raw, directory, name)
  {
    hide Split, CleanParts;
    var given := if StartsWith(raw, "./") then raw[2..] else raw;
    assert raw == given || raw == "./" + given;
    assert "./" + "" == "./" && "./" + "." == "./.";
    if !(directory && (given == "" || given == ".")) {
      CleanEnds(name);
      assert given == name || (directory && given == name + "/");
      assert "./" + (name + "/") == "./" + name + "/";
    }
  }

  /** A raw path is accepted as a name exactly if it is one of the spellings of it. */
  lemma AcceptedSpellings(raw: string, directory: bool, name: string)
    ensures CleanPath(raw, directory) == Some(name) <==> Spells(raw, directory, name)
  {
    if CleanPath(raw, directory) == Some(name) {
      AcceptedIsSpelling(raw, directory, name);
    }
    if Spells(raw, directory, name) {
      SpellingIsAccepted(raw, directory, name);
    }
  }

  // ---------------------------------------------------------------- accepted paths stay inside

  /** Where a file system goes from a directory along these segments. */
  function Resolve(at: seq<string>, segments: seq<string>): seq<string>
    decreases |segments|
  {
    if segments == [] then at
    else
      var s := segments[0];
      Resolve(if s == "" || s == "." then at else if s == ".." then (if at == [] then [] else at[..|at| - 1]) else at + [s], segments[1..])
  }

  lemma {:induction false} ResolvesDown(at: seq<string>, segments: seq<string>)
    requires forall i :: 0 <= i < |segments| ==> segments[i] !in ["", ".", ".."]
    ensures Resolve(at, segments) == at + segments
    decreases |segments|
  {
    if segments != [] {
      ResolvesDown(at + [segments[0]], segments[1..]);
      assert at + [segments[0]] + segments[1..] == at + segments;
    } else {
      assert at + segments == at;
    }
  }

  /** A clean path is one of plain characters whose segments are neither empty nor hidden,
      at most 32 of them, in at most 1024 characters. */
  lemma CleanIsPlain(name: string)
    ensures Clean(name) <==>
      var segments := Split(name, '/');
      && |name| <= 1024 && 1 <= |segments| <= 32
      && (forall c :: c in name ==> 'A' <= c <= 'Z' || 'a' <= c <= 'z' || '0' <= c <= '9' || c in "_@+-./")
      && forall i :: 0 <= i < |segments| ==> segments[i] != "" && segments[i][0] != '.'
  {
    var segments := Split(name, '/');
    if Clean(name) {
      forall c | c in name ensures 'A' <= c <= 'Z' || 'a' <= c <= 'z' || '0' <= c <= '9' || c in "_@+-./" {
        var k :| 0 <= k < |name| && name[k] == c;
        if c != '/' {
          var i := CharacterInPart(name, k);
          assert Segment(segments[i]);
        }
      }
      forall i | 0 <= i < |segments| ensures segments[i] != "" && segments[i][0] != '.' { assert Segment(segments[i]); }
    } else if forall c :: c in name ==> 'A' <= c <= 'Z' || 'a' <= c <= 'z' || '0' <= c <= '9' || c in "_@+-./" {
      NoSeparatorInParts(name, '/');
      forall i | 0 <= i < |segments| && segments[i] != "" && segments[i][0] != '.' ensures Segment(segments[i]) {
        forall k | 0 <= k < |segments[i]| ensures StartChar(segments[i][k]) || segments[i][k] == '.' {
          PartOfWhole(name, i, k);
        }
      }
    }
  }

  lemma {:induction false} PartOfWhole(s: string, i: nat, k: nat)
    requires i < |Split(s, '/')| && k < |Split(s, '/')[i]|
    ensures Split(s, '/')[i][k] in s
  {
    if s != [] {
      var rest, parts := Split(s[1..], '/'), Split(s, '/');
      SplitSteps(s);
      if s[0] == '/' {
        assert i > 0 && parts[i] == rest[i - 1];
        PartOfWhole(s[1..], i - 1, k);
      } else if i > 0 {
        assert parts[i] == rest[i];
        PartOfWhole(s[1..], i, k);
      } else if k > 0 {
        PartOfWhole(s[1..], 0, k - 1);
      }
    }
  }

  /** A clean path leads down from the directory where it is unpacked, one level for each
      segment. */
  lemma CleanLeadsDown(name: string, at: seq<string>)
    requires Clean(name)
    ensures Resolve(at, Split(name, '/')) == at + Split(name, '/')
  {
    CleanIsPlain(name);
    ResolvesDown(at, Split(name, '/'));
  }

  lemma {:induction false} CharacterInPart(s: string, k: nat) returns (i: nat)
    requires k < |s| && s[k] != '/'
    ensures i < |Split(s, '/')| && s[k] in Split(s, '/')[i]
  {
    var rest, parts := Split(s[1..], '/'), Split(s, '/');
    if k == 0 {
      i := 0;
    } else {
      var j := CharacterInPart(s[1..], k - 1);
      i := if s[0] == '/' then j + 1 else j;
      assert s[0] == '/' ==> parts == [""] + rest;
      assert s[0] != '/' ==> parts == [[s[0]] + rest[0]] + rest[1..];
    }
  }
}
