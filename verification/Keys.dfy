/** Names of objects: root, folder and base name, and what counts as mail. */
module Keys {
  import opened Options

  const SENDING_SUFFIX := ".sending"

  /** The position of the last slash, -1 if there is none. */
  function LastSlash(s: string): (i: int)
    ensures -1 <= i < |s| && (i >= 0 ==> s[i] == '/')
    ensures forall k :: i < k < |s| ==> s[k] != '/'
  {
    if s == "" then -1 else if s[|s| - 1] == '/' then |s| - 1 else LastSlash(s[..|s| - 1])
  }

  /** The base name, which the state of a message hangs on. */
  function Mid(key: string): string {
    key[LastSlash(key) + 1..]
  }

  function TrimPrefix(root: string, key: string): string {
    if root <= key then key[|root|..] else key
  }

  function FolderIn(root: string, key: string): string {
    var rest := TrimPrefix(root, key);
    if LastSlash(rest) < 0 then "" else rest[..LastSlash(rest)]
  }

  /** The key of a base name in a folder; without a folder it lies directly below the root. */
  function KeyIn(root: string, mid: string, folder: string): string {
    if folder == "" then root + mid else root + folder + "/" + mid
  }

  /** A root ends in a slash, unless it is empty. */
  predicate IsRoot(root: string) {
    root == "" || root[|root| - 1] == '/'
  }

  /** A name without a slash: a base name, or a folder directly below the root. */
  predicate Flat(name: string) {
    '/' !in name
  }

  lemma LastSlashIs(s: string, i: int)
    requires -1 <= i < |s| && (i >= 0 ==> s[i] == '/') && forall k :: i < k < |s| ==> s[k] != '/'
    ensures LastSlash(s) == i
  {
    hide LastSlash;
  }

  lemma AfterSlash(prefix: string, name: string)
    requires Flat(name) && IsRoot(prefix)
    ensures LastSlash(prefix + name) == |prefix| - 1 && Mid(prefix + name) == name
  {
    hide LastSlash;
    var s := prefix + name;
    forall k | |prefix| <= k < |s| ensures s[k] != '/' {
      assert s[k] == name[k - |prefix|];
    }
    if prefix != "" {
      assert s[|prefix| - 1] == prefix[|prefix| - 1];
    }
    LastSlashIs(s, |prefix| - 1);
    assert s[|prefix|..] == name;
  }

  function Prefix(root: string, folder: string): string {
    if folder == "" then root else root + folder + "/"
  }

  lemma PrefixOfKey(root: string, mid: string, folder: string)
    ensures KeyIn(root, mid, folder) == Prefix(root, folder) + mid
    ensures IsRoot(root) ==> IsRoot(Prefix(root, folder))
    ensures root <= KeyIn(root, mid, folder)
    ensures KeyIn(root, mid, folder)[|root|..] == if folder == "" then mid else (folder + "/") + mid
  {
  }

  lemma FolderOfRest(root: string, key: string, rest: string)
    requires root <= key && key[|root|..] == rest
    ensures FolderIn(root, key) == if LastSlash(rest) < 0 then "" else rest[..LastSlash(rest)]
  {
  }

  lemma SlashLast(folder: string)
    ensures IsRoot(folder + "/") && IsRoot("")
  {
  }

  lemma FolderFirst(folder: string, mid: string)
    ensures |folder + "/"| == |folder| + 1 && ((folder + "/") + mid)[..|folder|] == folder
  {
  }

  /** The base name and the folder can be read back from a key. */
  lemma KeyInReads(root: string, mid: string, folder: string)
    requires IsRoot(root) && Flat(mid) && Flat(folder)
    ensures Mid(KeyIn(root, mid, folder)) == mid
    ensures FolderIn(root, KeyIn(root, mid, folder)) == folder
    ensures root <= KeyIn(root, mid, folder)
  {
    hide *;
    var key := KeyIn(root, mid, folder);
    PrefixOfKey(root, mid, folder);
    AfterSlash(Prefix(root, folder), mid);
    FolderOfRest(root, key, key[|root|..]);
    SlashLast(folder);
    if folder == "" {
      AfterSlash("", mid);
      assert "" + mid == mid;
    } else {
      AfterSlash(folder + "/", mid);
      FolderFirst(folder, mid);
    }
  }

  lemma LastFlat(rest: string, i: int)
    requires -1 <= i < |rest| && forall k :: i < k < |rest| ==> rest[k] != '/'
    ensures Flat(rest[i + 1..])
  {
    var t := rest[i + 1..];
    assert forall k :: 0 <= k < |t| ==> t[k] == rest[i + 1 + k];
  }

  lemma RootSlash(root: string, rest: string, i: int)
    requires IsRoot(root) && -1 <= i < |rest| && (i >= 0 ==> rest[i] == '/')
    ensures IsRoot(root + rest[..i + 1])
  {
  }

  lemma SplitAtSlash(root: string, key: string)
    requires IsRoot(root) && root <= key
    ensures var rest := key[|root|..]; var i := LastSlash(rest);
      key == (root + rest[..i + 1]) + rest[i + 1..] && IsRoot(root + rest[..i + 1]) && Flat(rest[i + 1..])
  {
    hide *;
    var rest := key[|root|..];
    var i := LastSlash(rest);
    LastFlat(rest, i);
    RootSlash(root, rest, i);
    AfterPrefix(root, key);
    Halves(rest, i + 1);
    Regroup(root, rest[..i + 1], rest[i + 1..]);
  }

  lemma AfterPrefix(root: string, key: string)
    requires root <= key
    ensures key == root + key[|root|..]
  {
  }

  lemma Halves(s: string, i: nat)
    requires i <= |s|
    ensures s == s[..i] + s[i..]
  {
  }

  lemma Regroup(a: string, b: string, c: string)
    ensures a + (b + c) == (a + b) + c
  {
  }

  lemma Rejoined(root: string, rest: string, i: nat)
    requires i < |rest| && rest[i] == '/'
    ensures root + rest[..i] + "/" == root + rest[..i + 1]
  {
  }

  /** A key below the root is made of its folder and its base name, unless its folder is an empty segment. */
  lemma KeyInWrites(root: string, key: string)
    requires IsRoot(root) && root <= key
    ensures KeyIn(root, Mid(key), FolderIn(root, key)) == key <==> LastSlash(key[|root|..]) != 0
  {
    hide LastSlash, IsRoot, Flat, Mid, FolderIn;
    var rest := key[|root|..];
    var i := LastSlash(rest);
    SplitAtSlash(root, key);
    AfterSlash(root + rest[..i + 1], rest[i + 1..]);
    FolderOfRest(root, key, rest);
    if i < 0 {
      assert rest[..i + 1] == "" && root + "" == root;
    } else if i > 0 {
      Rejoined(root, rest, i);
    }
  }

  /** Below the root, one of the segments is hidden. */
  predicate HasDotSegment(path: string) {
    exists i :: 0 <= i < |path| && path[i] == '.' && (i == 0 || path[i - 1] == '/')
  }

  predicate EndsWith(s: string, suffix: string) {
    |suffix| <= |s| && s[|s| - |suffix|..] == suffix
  }

  /** What the program itself stores in the bucket. */
  predicate Internal(root: string, key: string) {
    EndsWith(key, SENDING_SUFFIX) || HasDotSegment(TrimPrefix(root, key))
  }

  predicate Own(root: string, key: string) {
    root <= key && !Internal(root, key)
  }

  /** A part of the path is hidden. */
  ghost predicate HiddenPart(path: string, a: string, b: string) {
    path == "." + b || path == a + "/." + b
  }

  lemma HiddenThere(path: string, i: nat)
    requires i < |path| && path[i] == '.' && (i == 0 || path[i - 1] == '/')
    ensures exists a, b :: HiddenPart(path, a, b)
  {
    if i == 0 {
      assert path == "." + path[1..];
      assert HiddenPart(path, "", path[1..]);
    } else {
      assert path == path[..i - 1] + "/." + path[i + 1..];
      assert HiddenPart(path, path[..i - 1], path[i + 1..]);
    }
  }

  lemma DotThere(path: string, a: string, b: string)
    requires HiddenPart(path, a, b)
    ensures HasDotSegment(path)
  {
    if path == "." + b {
      assert path[0] == '.';
    } else {
      assert path[|a|] == ("/." + b)[0] && path[|a| + 1] == ("/." + b)[1];
    }
  }

  lemma HiddenWhen(path: string)
    ensures HasDotSegment(path) <==> exists a, b :: HiddenPart(path, a, b)
  {
    if HasDotSegment(path) {
      var i :| 0 <= i < |path| && path[i] == '.' && (i == 0 || path[i - 1] == '/');
      HiddenThere(path, i);
    } else if a, b :| HiddenPart(path, a, b) {
      DotThere(path, a, b);
    }
  }

  /** A key belongs to the program itself if a part of it below the root is hidden, or if it is that of a marker. */
  lemma OwnWhen(root: string, key: string)
    ensures Own(root, key) <==>
      && root <= key && !EndsWith(key, ".sending")
      && !(exists a, b :: HiddenPart(key[|root|..], a, b))
  {
    hide HiddenPart, HasDotSegment;
    if root <= key {
      HiddenWhen(key[|root|..]);
    }
  }

  // -- folder names ----------------------------------------------------------------------------------

  /** What counts as a letter, a number or white space. */
  datatype Classes = Classes(letter: char -> bool, number: char -> bool, space: char -> bool)

  function TrimLeft(s: string, drop: char -> bool): string {
    if s != "" && drop(s[0]) then TrimLeft(s[1..], drop) else s
  }

  function TrimRight(s: string, drop: char -> bool): string {
    if s != "" && drop(s[|s| - 1]) then TrimRight(s[..|s| - 1], drop) else s
  }

  function Trim(s: string, drop: char -> bool): string {
    TrimRight(TrimLeft(s, drop), drop)
  }

  /** A letter, then up to 39 letters, numbers, underscores, spaces, dots and hyphens. */
  predicate FolderPattern(s: string, c: Classes) {
    && 1 <= |s| <= 40 && c.letter(s[0])
    && forall i :: 1 <= i < |s| ==> c.letter(s[i]) || c.number(s[i]) || s[i] in "_ .-"
  }

  /** The folder a name stands for; an empty one is the inbox. */
  function ValidFolder(name: string, c: Classes): Option<string> {
    var t := Trim(Trim(name, c.space), ch => ch == '/');
    if t == "" then Some("")
    else if '/' in t || t == "." || t == ".." || !FolderPattern(t, c) then None
    else Some(t)
  }

  /** The key for a base name; the folder's name is checked, and trimmed, again. */
  function KeyFor(root: string, mid: string, folder: string, c: Classes): Option<string> {
    match ValidFolder(folder, c)
    case None => None
    case Some(f) => Some(KeyIn(root, mid, f))
  }

  /** Letters are neither dots, slashes nor white space. */
  ghost predicate Sensible(c: Classes) {
    !c.letter('.') && !c.letter('/') && !c.space('/') && forall ch :: c.letter(ch) ==> !c.space(ch)
  }

  /** The folder in which the keys for an accepted name lie. */
  function Home(folder: string, c: Classes): string {
    TrimRight(folder, c.space)
  }

  predicate EndsInSpace(folder: string, c: Classes) {
    folder != "" && c.space(folder[|folder| - 1])
  }

  lemma {:induction false} TrimmedPrefix(s: string, drop: char -> bool)
    ensures var t := TrimRight(s, drop);
      && t <= s && (t == "" || !drop(t[|t| - 1])) && (t == s <==> s == "" || !drop(s[|s| - 1]))
      && (s != "" && !drop(s[0]) ==> t != "")
  {
    if s != "" && drop(s[|s| - 1]) {
      TrimmedPrefix(s[..|s| - 1], drop);
    }
  }

  predicate AllOf(s: string, drop: char -> bool) {
    forall i :: 0 <= i < |s| ==> drop(s[i])
  }

  lemma AllOfMore(s: string, drop: char -> bool, ch: char)
    requires AllOf(s, drop) && drop(ch)
    ensures AllOf([ch] + s, drop) && AllOf(s + [ch], drop)
  {
  }

  /** What is left after trimming: the dropped characters are at the ends, and none of them is left there. */
  ghost predicate TrimmedTo(s: string, drop: char -> bool, t: string, a: string, b: string) {
    && s == a + t + b && AllOf(a, drop) && AllOf(b, drop)
    && (t != "" ==> !drop(t[0]) && !drop(t[|t| - 1]))
  }

  lemma {:induction false} LeftTrimmed(s: string, drop: char -> bool) returns (a: string)
    ensures s == a + TrimLeft(s, drop) && AllOf(a, drop)
    ensures TrimLeft(s, drop) != "" ==> !drop(TrimLeft(s, drop)[0])
  {
    hide AllOf;
    NoneOf(drop);
    if s != "" && drop(s[0]) {
      var rest := LeftTrimmed(s[1..], drop);
      AllOfMore(rest, drop, s[0]);
      a := [s[0]] + rest;
      assert s == [s[0]] + s[1..];
    } else {
      a := "";
    }
  }

  lemma NoneOf(drop: char -> bool)
    ensures AllOf("", drop)
  {
  }

  lemma {:induction false} RightTrimmed(s: string, drop: char -> bool) returns (b: string)
    ensures s == TrimRight(s, drop) + b && AllOf(b, drop)
    ensures TrimRight(s, drop) != "" ==> !drop(TrimRight(s, drop)[|TrimRight(s, drop)| - 1])
  {
    hide AllOf;
    NoneOf(drop);
    if s != "" && drop(s[|s| - 1]) {
      var rest := RightTrimmed(s[..|s| - 1], drop);
      AllOfMore(rest, drop, s[|s| - 1]);
      b := rest + [s[|s| - 1]];
      assert s == s[..|s| - 1] + [s[|s| - 1]];
    } else {
      b := "";
    }
  }

  lemma TrimIs(s: string, drop: char -> bool) returns (a: string, b: string)
    ensures TrimmedTo(s, drop, Trim(s, drop), a, b)
  {
    a := LeftTrimmed(s, drop);
    var left := TrimLeft(s, drop);
    b := RightTrimmed(left, drop);
    var t := TrimRight(left, drop);
    assert t != "" ==> t[0] == left[0];
    assert s == a + (t + b) == a + t + b;
  }

  /**
    Which names are accepted, and as what: white space around the name goes, and then slashes; what is left is
    empty, for the inbox, or a letter and up to 39 letters, numbers, underscores, spaces, dots and hyphens.
    */
  lemma ValidFolderIs(name: string, c: Classes)
    returns (a: string, b: string, u: string, v: string, inner: string, t: string)
    requires Sensible(c)
    ensures TrimmedTo(name, c.space, inner, a, b) && TrimmedTo(inner, ch => ch == '/', t, u, v)
    ensures ValidFolder(name, c)
         == if t == ""
               || (|t| <= 40 && c.letter(t[0]) && '/' !in t
                   && (forall i :: 1 <= i < |t| ==> c.letter(t[i]) || c.number(t[i]) || t[i] in {'_', ' ', '.', '-'}))
            then Some(t) else None
  {
    a, b := TrimIs(name, c.space);
    inner := Trim(name, c.space);
    u, v := TrimIs(inner, ch => ch == '/');
    t := Trim(inner, ch => ch == '/');
    hide Trim;
  }

  /** An accepted name is accepted again, but trimmed once more if it ends in a space. */
  lemma ValidAgain(name: string, c: Classes)
    requires Sensible(c) && ValidFolder(name, c).Some?
    ensures var t := ValidFolder(name, c).value;
      && FolderName(t) && FolderName(Home(t, c))
      && ValidFolder(t, c) == Some(Home(t, c)) && (Home(t, c) == t <==> !EndsInSpace(t, c))
  {
    var t := ValidFolder(name, c).value;
    TrimmedPrefix(t, c.space);
    if t != "" {
      var h := Home(t, c);
      TrimmedPrefix(h, ch => ch == '/');
      assert h[0] == t[0];
      assert TrimLeft(t, c.space) == t;
      assert forall i :: 0 <= i < |h| ==> h[i] == t[i];
      assert '/' !in h;
      assert Trim(h, ch => ch == '/') == h;
    }
  }

  /** A key for an accepted name lies in the folder of that name if and only if the name does not end in a space. */
  lemma KeyForReads(root: string, mid: string, name: string, c: Classes)
    requires IsRoot(root) && Flat(mid) && Sensible(c) && ValidFolder(name, c).Some?
    ensures var t := ValidFolder(name, c).value; var key := KeyFor(root, mid, t, c);
      && key.Some? && Mid(key.value) == mid && root <= key.value
      && (FolderIn(root, key.value) == t <==> !EndsInSpace(t, c))
  {
    ValidAgain(name, c);
    hide ValidFolder, Home, EndsInSpace;
    KeyInReads(root, mid, Home(ValidFolder(name, c).value, c));
  }

  /** A space before a slash survives the first check. */
  lemma SpaceBeforeSlash(c: Classes)
    requires Sensible(c) && c.letter('a') && c.space(' ')
    ensures ValidFolder("a /", c) == Some("a ") && EndsInSpace("a ", c)
    ensures KeyFor("", "m", "a ", c) == Some("a/m")
  {
    var slash := ch => ch == '/';
    assert TrimLeft("a /", c.space) == "a /" && TrimRight("a /", c.space) == "a /";
    assert TrimLeft("a /", slash) == "a /";
    assert "a /"[..2] == "a ";
    assert TrimRight("a ", slash) == "a ";
    assert TrimRight("a /", slash) == "a ";
    assert "a "[..1] == "a";
    assert TrimRight("a", c.space) == "a" && TrimRight("a ", c.space) == "a";
    assert Trim("a", slash) == "a";
    assert ValidFolder("a ", c) == Some("a");
    assert KeyIn("", "m", "a") == "a/m";
  }

  // -- numbered names --------------------------------------------------------------------------------

  function Digit(d: nat): char
    requires d < 10
  {
    "0123456789"[d]
  }

  function Decimal(n: nat): (s: string)
    ensures s != "" && Flat(s) && s[0] != '.' && '.' !in s
  {
    if n < 10 then [Digit(n)] else Decimal(n / 10) + [Digit(n % 10)]
  }

  lemma DigitInjective(a: nat, b: nat)
    requires a < 10 && b < 10 && Digit(a) == Digit(b)
    ensures a == b
  {
  }

  lemma {:induction false} DecimalInjective(a: nat, b: nat)
    requires Decimal(a) == Decimal(b)
    ensures a == b
  {
    var s, t := Decimal(a), Decimal(b);
    assert s[|s| - 1] == Digit(a % 10) && t[|t| - 1] == Digit(b % 10);
    DigitInjective(a % 10, b % 10);
    if a >= 10 && b >= 10 {
      assert s[..|s| - 1] == Decimal(a / 10) && t[..|t| - 1] == Decimal(b / 10);
      DecimalInjective(a / 10, b / 10);
    }
  }

  /** The number a row of digits stands for. */
  function Reading(s: string): nat {
    if s == "" then 0
    else 10 * Reading(s[..|s| - 1]) + (if '0' <= s[|s| - 1] <= '9' then s[|s| - 1] as nat - '0' as nat else 0)
  }

  /** A number is written in decimal digits, without zeros in front. */
  lemma {:induction false} DecimalReads(n: nat)
    ensures Reading(Decimal(n)) == n && (forall i :: 0 <= i < |Decimal(n)| ==> '0' <= Decimal(n)[i] <= '9')
    ensures n > 0 ==> Decimal(n)[0] != '0'
  {
    var s := Decimal(n);
    if n >= 10 {
      DecimalReads(n / 10);
      assert s[..|s| - 1] == Decimal(n / 10);
      DigitReads(n % 10);
    } else {
      DigitReads(n);
      assert s[..0] == "" && Reading("") == 0;
    }
  }

  lemma DigitReads(d: nat)
    requires d < 10
    ensures '0' <= Digit(d) <= '9' && Digit(d) as nat == '0' as nat + d
  {
  }

  /** The position of the first dot, the length if there is none. */
  function FirstDot(s: string): (i: nat)
    ensures i <= |s| && (i < |s| ==> s[i] == '.') && forall k :: 0 <= k < i ==> s[k] != '.'
  {
    if s == "" then 0 else if s[0] == '.' then 0 else 1 + FirstDot(s[1..])
  }

  /** The n-th name to try: the number goes before the first dot. */
  function Numbered(mid: string, n: nat): string {
    mid[..FirstDot(mid)] + "-" + Decimal(n) + mid[FirstDot(mid)..]
  }

  function Candidate(mid: string, n: nat): string {
    if n == 0 then mid else Numbered(mid, n)
  }

  /** In a name with a dot the number stands before the first one, in any other at the end. */
  lemma CandidateIs(stem: string, ext: string, n: nat)
    requires n > 0 && '.' !in stem
    ensures Candidate(stem + "." + ext, n) == stem + "-" + Decimal(n) + "." + ext
    ensures Candidate(stem, n) == stem + "-" + Decimal(n)
  {
    hide FirstDot, Decimal;
    DotAt(stem, ext);
    assert stem + "-" + Decimal(n) + "" == stem + "-" + Decimal(n);
    assert stem + "-" + Decimal(n) + ("." + ext) == stem + "-" + Decimal(n) + "." + ext;
  }

  lemma DotAt(stem: string, ext: string)
    requires '.' !in stem
    ensures FirstDot(stem) == |stem| && stem[..|stem|] == stem && stem[|stem|..] == ""
    ensures var mid := stem + "." + ext; FirstDot(mid) == |stem| && mid[..|stem|] == stem && mid[|stem|..] == "." + ext
  {
    hide FirstDot;
    var mid := stem + "." + ext;
    assert forall k :: 0 <= k < |stem| ==> mid[k] == stem[k];
    assert mid[|stem|] == '.';
  }

  lemma CandidatesDiffer(mid: string, a: nat, b: nat)
    requires Candidate(mid, a) == Candidate(mid, b)
    ensures a == b
  {
    var at := FirstDot(mid);
    if a > 0 && b > 0 {
      var s, t := Numbered(mid, a), Numbered(mid, b);
      assert s[at + 1..|s| - (|mid| - at)] == Decimal(a);
      assert t[at + 1..|t| - (|mid| - at)] == Decimal(b);
      DecimalInjective(a, b);
    } else {
      assert |Candidate(mid, a)| == |Candidate(mid, b)|;
    }
  }

  lemma CandidateFlat(mid: string, n: nat)
    requires Flat(mid)
    ensures Flat(Candidate(mid, n))
  {
  }

  lemma KeysDiffer(root: string, folder: string, a: string, b: string)
    requires KeyIn(root, a, folder) == KeyIn(root, b, folder)
    ensures a == b
  {
    var prefix := Prefix(root, folder);
    PrefixOfKey(root, a, folder);
    PrefixOfKey(root, b, folder);
    assert (prefix + a)[|prefix|..] == a && (prefix + b)[|prefix|..] == b;
  }

  // -- candidates are mail ---------------------------------------------------------------------------

  /** A folder name is flat and does not start with a dot. */
  predicate FolderName(folder: string) {
    Flat(folder) && (folder == "" || folder[0] != '.')
  }

  /** A base name that is neither hidden nor a marker. */
  predicate MailName(mid: string) {
    Flat(mid) && (mid == "" || mid[0] != '.') && !EndsWith(mid, SENDING_SUFFIX)
  }

  lemma OwnMailName(root: string, key: string)
    requires IsRoot(root) && Own(root, key)
    ensures MailName(Mid(key))
  {
    var rest := key[|root|..];
    NotHiddenAt(rest, LastSlash(rest) + 1);
    hide LastSlash, HasDotSegment, IsRoot, EndsWith, Mid, Flat;
    var i := LastSlash(rest);
    SplitAtSlash(root, key);
    AfterSlash(root + rest[..i + 1], rest[i + 1..]);
    var mid := rest[i + 1..];
    assert mid != "" ==> mid[0] == rest[i + 1];
    if EndsWith(mid, SENDING_SUFFIX) {
      SuffixOfRest(root + rest[..i + 1], mid);
    }
  }

  lemma NotHiddenAt(path: string, i: nat)
    requires !HasDotSegment(path) && i <= |path| && (i == 0 || path[i - 1] == '/')
    ensures i < |path| ==> path[i] != '.'
  {
  }

  lemma SuffixOfRest(a: string, b: string)
    requires EndsWith(b, SENDING_SUFFIX)
    ensures EndsWith(a + b, SENDING_SUFFIX)
  {
    var n := |SENDING_SUFFIX|;
    assert (a + b)[|a + b| - n..] == b[|b| - n..];
  }

  lemma NameOwn(root: string, mid: string, folder: string)
    requires IsRoot(root) && MailName(mid) && FolderName(folder) && mid != ""
    ensures Own(root, KeyIn(root, mid, folder))
  {
    var key := KeyIn(root, mid, folder);
    PrefixOfKey(root, mid, folder);
    var rest := key[|root|..];
    NoDotSegment(folder, mid, rest);
    if EndsWith(key, SENDING_SUFFIX) {
      SuffixInName(Prefix(root, folder), mid);
    }
  }

  lemma NoDotSegment(folder: string, mid: string, rest: string)
    requires MailName(mid) && FolderName(folder) && mid != ""
    requires rest == if folder == "" then mid else (folder + "/") + mid
    ensures !HasDotSegment(rest)
  {
    forall i | 0 <= i < |rest| && rest[i] == '.' ensures i > 0 && rest[i - 1] != '/' {
      if folder == "" {
        assert i > 0 ==> rest[i - 1] == mid[i - 1];
      } else if i <= |folder| {
        assert i > 0 ==> rest[i - 1] == folder[i - 1];
        assert i < |folder| ==> rest[i] == folder[i];
      } else {
        assert rest[i] == mid[i - |folder| - 1];
        assert i > |folder| + 1 ==> rest[i - 1] == mid[i - |folder| - 2];
      }
    }
  }

  lemma SuffixAt(s: string, k: nat)
    requires EndsWith(s, SENDING_SUFFIX) && k < |SENDING_SUFFIX|
    ensures s[|s| - |SENDING_SUFFIX| + k] == SENDING_SUFFIX[k] != '/'
    ensures k == 0 ==> SENDING_SUFFIX[k] == '.'
  {
    assert s[|s| - |SENDING_SUFFIX|..][k] == SENDING_SUFFIX[k];
  }

  lemma SameSuffix(a: string, b: string)
    requires EndsWith(a + b, SENDING_SUFFIX) && |b| >= |SENDING_SUFFIX|
    ensures EndsWith(b, SENDING_SUFFIX)
  {
    var s, n := a + b, |SENDING_SUFFIX|;
    assert s[|s| - n..] == b[|b| - n..];
  }

  lemma SlashBefore(prefix: string, mid: string)
    requires IsRoot(prefix) && prefix != ""
    ensures (prefix + mid)[|prefix| - 1] == '/'
  {
  }

  /** The marker suffix has no slash in it, so a name in a key ends with it if the key does. */
  lemma SuffixInName(prefix: string, mid: string)
    requires EndsWith(prefix + mid, SENDING_SUFFIX) && Flat(mid) && IsRoot(prefix)
    ensures EndsWith(mid, SENDING_SUFFIX)
  {
    if |mid| < |SENDING_SUFFIX| {
      SlashBefore(prefix, mid);
      SuffixAt(prefix + mid, |SENDING_SUFFIX| - |mid| - 1);
    } else {
      SameSuffix(prefix, mid);
    }
  }

  lemma CandidateMail(mid: string, n: nat)
    requires MailName(mid)
    ensures MailName(Candidate(mid, n)) && (mid != "" ==> Candidate(mid, n) != "")
  {
    if n > 0 {
      CandidateFlat(mid, n);
      var at := FirstDot(mid);
      var head, tail := mid[..at] + "-" + Decimal(n), mid[at..];
      assert mid == mid[..at] + tail;
      if EndsWith(head + tail, SENDING_SUFFIX) {
        SuffixInTail(head, tail);
        SuffixOfRest(mid[..at], tail);
      }
    }
  }

  lemma NoDotBefore(head: string, tail: string, k: nat)
    requires '.' !in head && k < |head|
    ensures (head + tail)[k] != '.'
  {
  }

  /** The marker suffix starts with a dot, so it lies behind a part without dots. */
  lemma SuffixInTail(head: string, tail: string)
    requires EndsWith(head + tail, SENDING_SUFFIX) && '.' !in head
    ensures EndsWith(tail, SENDING_SUFFIX)
  {
    if |tail| < |SENDING_SUFFIX| {
      NoDotBefore(head, tail, |head| + |tail| - |SENDING_SUFFIX|);
      SuffixAt(head + tail, 0);
    } else {
      SameSuffix(head, tail);
    }
  }

  // -- the first free name ---------------------------------------------------------------------------

  /** The keys of the first n candidates. */
  function Tried(root: string, mid: string, folder: string, n: nat): set<string> {
    if n == 0 then {} else Tried(root, mid, folder, n - 1) + {KeyIn(root, Candidate(mid, n - 1), folder)}
  }

  lemma {:induction false} TriedMembers(root: string, mid: string, folder: string, n: nat)
    ensures forall k :: k in Tried(root, mid, folder, n) ==>
      exists i :: 0 <= i < n && k == KeyIn(root, Candidate(mid, i), folder)
  {
    hide KeyIn, Candidate;
    if n > 0 {
      TriedMembers(root, mid, folder, n - 1);
    }
  }

  lemma NewCandidate(root: string, mid: string, folder: string, n: nat)
    ensures KeyIn(root, Candidate(mid, n), folder) !in Tried(root, mid, folder, n)
  {
    TriedMembers(root, mid, folder, n);
    hide KeyIn, Candidate, Tried;
    if i: nat :| i < n && KeyIn(root, Candidate(mid, n), folder) == KeyIn(root, Candidate(mid, i), folder) {
      KeysDiffer(root, folder, Candidate(mid, i), Candidate(mid, n));
      CandidatesDiffer(mid, i, n);
    }
  }

  /** No two candidates make the same key. */
  lemma {:induction false} TriedCount(root: string, mid: string, folder: string, n: nat)
    ensures |Tried(root, mid, folder, n)| == n
  {
    hide KeyIn, Candidate;
    if n > 0 {
      TriedCount(root, mid, folder, n - 1);
      NewCandidate(root, mid, folder, n - 1);
    }
  }

  /** The name is the first candidate whose key is free, and not a late one. */
  ghost predicate FirstFree(root: string, taken: set<string>, mid: string, home: string, newMid: string) {
    && KeyIn(root, newMid, home) !in taken
    && exists n: nat :: n <= |taken| && newMid == Candidate(mid, n) && Tried(root, mid, home, n) <= taken
  }

  /** If the name itself is taken and its first variant is not, that is the one. */
  lemma SecondCandidate(root: string, taken: set<string>, mid: string, home: string, newMid: string)
    requires FirstFree(root, taken, mid, home, newMid)
    requires KeyIn(root, mid, home) in taken && KeyIn(root, Candidate(mid, 1), home) !in taken
    ensures newMid == Candidate(mid, 1)
  {
    hide KeyIn, Candidate;
    var n: nat :| n <= |taken| && newMid == Candidate(mid, n) && Tried(root, mid, home, n) <= taken;
    FirstCandidate(mid);
    if n > 1 {
      TriedBefore(root, mid, home, 1, n);
    }
  }

  lemma {:induction false} TriedBefore(root: string, mid: string, folder: string, i: nat, n: nat)
    requires i < n
    ensures KeyIn(root, Candidate(mid, i), folder) in Tried(root, mid, folder, n)
  {
    if i < n - 1 {
      TriedBefore(root, mid, folder, i, n - 1);
    }
  }

  /** A key that is not taken: the first candidate that is free, among the first |taken| + 1. */
  method FreeKey(root: string, taken: set<string>, mid: string, target: string, c: Classes)
    returns (key: string, newMid: string)
    requires IsRoot(root) && Flat(mid) && ValidFolder(target, c).Some? && Flat(ValidFolder(target, c).value)
    ensures key !in taken && KeyFor(root, newMid, target, c) == Some(key)
    ensures var home := ValidFolder(target, c).value;
      && Mid(key) == newMid && FolderIn(root, key) == home && Flat(newMid) && root <= key
      && FirstFree(root, taken, mid, home, newMid)
  {
    hide KeyIn, Candidate, Mid, FolderIn, Flat, ValidFolder;
    ghost var home := ValidFolder(target, c).value;
    var candidate := KeyFor(root, mid, target, c).value;
    ghost var at: nat := 0;
    assert Candidate(mid, 0) == mid by {
      FirstCandidate(mid);
    }
    var n: nat := 1;
    while candidate in taken
      invariant n == at + 1 && candidate == KeyIn(root, Candidate(mid, at), home)
      invariant at <= |taken| && Tried(root, mid, home, at) <= taken
      decreases |taken| - at
    {
      TriedCount(root, mid, home, at + 1);
      MoreTaken(Tried(root, mid, home, at + 1), taken);
      NumberedIs(mid, n);
      var dot := FirstDot(mid);
      candidate := KeyFor(root, mid[..dot] + "-" + Decimal(n) + mid[dot..], target, c).value;
      n := n + 1;
      at := at + 1;
    }
    key := candidate;
    CandidateFlat(mid, at);
    KeyInReads(root, Candidate(mid, at), home);
    newMid := Mid(candidate);
  }

  lemma FirstCandidate(mid: string)
    ensures Candidate(mid, 0) == mid
  {
  }

  lemma NumberedIs(mid: string, n: nat)
    requires n > 0
    ensures Candidate(mid, n) == mid[..FirstDot(mid)] + "-" + Decimal(n) + mid[FirstDot(mid)..]
  {
  }

  lemma {:induction false} MoreTaken(some: set<string>, all: set<string>)
    requires some <= all
    ensures |some| <= |all|
  {
    if some != {} {
      var k :| k in some;
      MoreTaken(some - {k}, all - {k});
    }
  }
}
