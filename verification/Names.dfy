/** Stored file names: reducing what a browser sent to a safe name, keeping names
    apart within one job, and resolving a name inside a job directory.

    A name is its sequence of characters.  (Go's character mapping replaces bytes
    that are not UTF-8 by the replacement character before anything else looks.) */
module Names {
  import opened Options

  const MAX_FILE_NAME_LENGTH := 100
  const MAX_EXTENSION_LENGTH := 16

  // ---------------------------------------------------------------- characters

  predicate Digit(c: char) { '0' <= c <= '9' }
  predicate Lower(c: char) { 'a' <= c <= 'z' }
  predicate Upper(c: char) { 'A' <= c <= 'Z' }
  predicate Alnum(c: char) { Digit(c) || Lower(c) || Upper(c) }
  predicate Separator(c: char) { c == '.' || c == '-' || c == '_' }
  predicate Control(c: char) { (c as int) < 0x20 || c as int == 0x7f }

  function ToLower(c: char): char {
    if Upper(c) then ((c as int) - ('A' as int) + ('a' as int)) as char else c
  }

  /** The letters and digits of a text, in order and in lower case. */
  ghost function Letters(s: string): string {
    if s == "" then ""
    else
      var last := |s| - 1;
      Letters(s[..last]) + if Alnum(s[last]) then [ToLower(s[last])] else ""
  }

  predicate SafeChar(c: char) {
    Digit(c) || Lower(c) || Separator(c)
  }

  /** No separator follows another. */
  ghost predicate Apart(s: string, i: nat)
    requires i < |s| - 1
  {
    !(Separator(s[i]) && Separator(s[i + 1]))
  }

  /** Lower-case letters and digits, with single separators only, none in front. */
  ghost predicate Builder(s: string) {
    && (forall i :: 0 <= i < |s| ==> SafeChar(s[i]))
    && (s != "" ==> !Separator(s[0]))
    && forall i :: 0 <= i < |s| - 1 ==> Apart(s, i)
  }

  /** The same with none at the end either. */
  ghost predicate Token(s: string) {
    Builder(s) && (s != "" ==> !Separator(s[|s| - 1]))
  }

  // ---------------------------------------------------------------- trimming

  const SEPARATORS: set<char> := {'-', '.', '_'}

  function TrimLeft(s: string, cut: set<char>): (r: string)
    ensures |r| <= |s| && r == s[|s| - |r|..]
    ensures r != "" ==> r[0] !in cut
    ensures forall i :: 0 <= i < |s| - |r| ==> s[i] in cut
  {
    if s != "" && s[0] in cut then TrimLeft(s[1..], cut) else s
  }

  function TrimRight(s: string, cut: set<char>): (r: string)
    ensures r <= s
    ensures r != "" ==> r[|r| - 1] !in cut
    ensures forall i :: |r| <= i < |s| ==> s[i] in cut
  {
    if s != "" && s[|s| - 1] in cut then TrimRight(s[..|s| - 1], cut) else s
  }

  function Trim(s: string, cut: set<char>): string {
    TrimRight(TrimLeft(s, cut), cut)
  }

  lemma {:induction false} LettersConcat(a: string, b: string)
    ensures Letters(a + b) == Letters(a) + Letters(b)
  {
    if b == "" {
      assert a + b == a;
    } else {
      var last := |b| - 1;
      assert (a + b)[..|a| + last] == a + b[..last];
      LettersConcat(a, b[..last]);
    }
  }

  lemma {:induction false} NoLetters(s: string)
    requires forall i :: 0 <= i < |s| ==> !Alnum(s[i])
    ensures Letters(s) == ""
  {
    if s != "" {
      NoLetters(s[..|s| - 1]);
    }
  }

  lemma BuilderPrefix(s: string, r: string)
    requires Builder(s) && r <= s
    ensures Builder(r)
  {
    forall i | 0 <= i < |r| - 1 ensures Apart(r, i) {
      assert Apart(s, i);
    }
  }

  /** Only separators at the end of a builder are trimmed. */
  lemma TrimBuilder(s: string)
    requires Builder(s)
    ensures Token(Trim(s, SEPARATORS)) && Letters(Trim(s, SEPARATORS)) == Letters(s)
  {
    assert s != "" ==> s[0] !in SEPARATORS;
    var r := TrimRight(s, SEPARATORS);
    assert Trim(s, SEPARATORS) == r;
    BuilderPrefix(s, r);
    assert r != "" ==> !Separator(r[|r| - 1]);
    LettersOfPrefix(s, r);
  }

  lemma LettersOfPrefix(s: string, r: string)
    requires r <= s && forall i :: |r| <= i < |s| ==> !Alnum(s[i])
    ensures Letters(r) == Letters(s)
  {
    assert s == r + s[|r|..];
    LettersConcat(r, s[|r|..]);
    NoLetters(s[|r|..]);
  }

  lemma BuilderGrows(s: string, c: char)
    requires Builder(s) && SafeChar(c)
    requires Separator(c) ==> s != "" && !Separator(s[|s| - 1])
    ensures Builder(s + [c])
  {
    var t := s + [c];
    forall i | 0 <= i < |t| - 1 ensures Apart(t, i) {
      assert i < |s| - 1 ==> Apart(s, i);
    }
  }

  // ---------------------------------------------------------------- sanitizing

  /** Keeps every letter and digit of the text, in order and in lower case, and one
      separator for each run of other characters between them. */
  method SanitizeToken(value: string) returns (r: string)
    ensures Token(r)
    ensures Letters(r) == Letters(value) && |r| <= |value|
  {
    var start := if value != "" && value[0] == '.' then 1 else 0;
    var builder: string := "";
    var separator := false;
    var i := start;
    if start == 1 {
      assert value[..1] == ".";
      NoLetters(value[..1]);
    }
    assert value[..0] == "";
    while i < |value|
      invariant start <= i <= |value|
      invariant Letters(builder) == Letters(value[..i]) && |builder| <= i
      invariant Builder(builder)
      invariant builder != "" ==> separator == Separator(builder[|builder| - 1])
    {
      var c := value[i];
      assert value[..i + 1][..i] == value[..i];
      ghost var before := builder;
      if Alnum(c) {
        builder := builder + [ToLower(c)];
        separator := false;
        BuilderGrows(before, ToLower(c));
        assert builder[..|builder| - 1] == before;
      } else if builder != "" && !separator {
        builder := builder + [if Separator(c) then c else '-'];
        separator := true;
        BuilderGrows(before, builder[|before|]);
        assert builder[..|builder| - 1] == before;
      }
      i := i + 1;
    }
    assert value[..i] == value;
    TrimBuilder(builder);
    r := Trim(builder, SEPARATORS);
  }

  function DropControls(s: string): (r: string)
    ensures forall i :: 0 <= i < |r| ==> !Control(r[i])
  {
    if s == "" then "" else (if Control(s[0]) then "" else [s[0]]) + DropControls(s[1..])
  }

  predicate Slash(c: char) { c == '/' || c == '\\' }

  /** What follows the last path separator of either kind. */
  function BaseName(s: string): (r: string)
    ensures |r| <= |s|
    ensures forall i :: 0 <= i < |r| ==> !Slash(r[i]) && r[i] == s[|s| - |r| + i]
    ensures |r| < |s| ==> Slash(s[|s| - |r| - 1])
  {
    if s == "" then ""
    else if Slash(s[|s| - 1]) then ""
    else BaseName(s[..|s| - 1]) + [s[|s| - 1]]
  }

  /** The extension with its dot: the text from the last dot on. */
  function Ext(s: string): (r: string)
    ensures |r| <= |s| && r == s[|s| - |r|..]
    ensures r != "" ==> r[0] == '.' && '.' !in r[1..]
    ensures r == "" <==> '.' !in s
  {
    if s == "" then ""
    else if s[|s| - 1] == '.' then "."
    else
      var front := Ext(s[..|s| - 1]);
      if front == "" then "" else front + [s[|s| - 1]]
  }

  function Stem(s: string): string {
    s[..|s| - |Ext(s)|]
  }

  /** Conservative characters, no leading dot or separator. */
  ghost predicate SafeText(s: string) {
    && s != "" && !Separator(s[0])
    && forall i :: 0 <= i < |s| ==> SafeChar(s[i])
  }

  ghost predicate SafeName(s: string) {
    SafeText(s) && |s| <= MAX_FILE_NAME_LENGTH
  }

  /** What the intake passes as fallback: a short file identifier. */
  ghost predicate UsableFallback(s: string) {
    SafeText(s) && !Separator(s[|s| - 1]) && |s| <= MAX_FILE_NAME_LENGTH - MAX_EXTENSION_LENGTH
  }

  /** The last path component as shown, without control characters or leading dots. */
  function Visible(name: string): string {
    TrimLeft(BaseName(DropControls(name)), {'.'})
  }

  method SafeFileName(name: string, fallback: string) returns (r: string)
    ensures SafeText(fallback) || Letters(Stem(Visible(name))) != "" ==> SafeName(r)
    ensures UsableFallback(fallback) && Letters(Stem(Visible(name))) == "" ==> fallback <= r
    ensures ShortName(Visible(name)) ==> Letters(r) == Letters(Visible(name))
  {
    r := SafeVisibleName(Visible(name), fallback);
  }

  method SafeVisibleName(visible: string, fallback: string) returns (r: string)
    ensures SafeText(fallback) || Letters(Stem(visible)) != "" ==> SafeName(r)
    ensures UsableFallback(fallback) && Letters(Stem(visible)) == "" ==> fallback <= r
    ensures ShortName(visible) ==> Letters(r) == Letters(visible)
  {
    var extension := SanitizeToken(Ext(visible));
    var stem := SanitizeToken(Stem(visible));
    r := Assembled(stem, extension, fallback);
    VisibleResult(stem, extension, fallback, visible);
  }

  lemma VisibleResult(stem: string, extension: string, fallback: string, visible: string)
    requires Token(stem) && Token(extension)
    requires Letters(stem) == Letters(Stem(visible)) && |stem| <= |Stem(visible)|
    requires Letters(extension) == Letters(Ext(visible)) && |extension| <= |Ext(visible)|
    ensures var r := Assembled(stem, extension, fallback);
      && (SafeText(fallback) || Letters(Stem(visible)) != "" ==> SafeName(r))
      && (UsableFallback(fallback) && Letters(Stem(visible)) == "" ==> fallback <= r)
      && (ShortName(visible) ==> Letters(r) == Letters(visible))
  {
    StemAndExt(visible);
    assert SafeChars(extension);
    AssembledResult(stem, extension, fallback, Stem(visible), Ext(visible));
  }

  lemma StemAndExt(s: string)
    ensures Stem(s) + Ext(s) == s && |Stem(s)| + |Ext(s)| == |s|
  {
  }

  lemma AssembledResult(stem: string, extension: string, fallback: string, a: string, b: string)
    requires Token(stem) && SafeChars(extension)
    requires Letters(stem) == Letters(a) && |stem| <= |a|
    requires Letters(extension) == Letters(b) && |extension| <= |b|
    ensures var r := Assembled(stem, extension, fallback);
      && (SafeText(fallback) || Letters(a) != "" ==> SafeName(r))
      && (UsableFallback(fallback) && Letters(a) == "" ==> fallback <= r)
      && (Letters(a) != "" && |b| < MAX_EXTENSION_LENGTH && |a| + |b| <= MAX_FILE_NAME_LENGTH - MAX_EXTENSION_LENGTH ==>
            Letters(r) == Letters(a + b))
  {
    AssembledSafe(stem, extension, fallback);
    if stem != "" {
      TokenHasLetters(stem);
    }
    if Letters(a) != "" && |b| < MAX_EXTENSION_LENGTH && |a| + |b| <= MAX_FILE_NAME_LENGTH - MAX_EXTENSION_LENGTH {
      AssembledLetters(stem, extension, fallback, a, b);
    }
  }

  function Assembled(stem: string, extension: string, fallback: string): string {
    var dotted := DottedExtension(extension);
    BoundedStem(if stem == "" then fallback else stem, MAX_FILE_NAME_LENGTH - |dotted|, fallback) + dotted
  }

  function DottedExtension(extension: string): (r: string)
    ensures |r| <= MAX_EXTENSION_LENGTH && r <= "." + extension
  {
    if extension == "" then ""
    else if |extension| + 1 > MAX_EXTENSION_LENGTH then "." + extension[..MAX_EXTENSION_LENGTH - 1]
    else "." + extension
  }

  /** Nothing of such a name is cut off. */
  ghost predicate ShortName(trimmed: string) {
    && Letters(Stem(trimmed)) != "" && |Ext(trimmed)| < MAX_EXTENSION_LENGTH
    && |trimmed| <= MAX_FILE_NAME_LENGTH - MAX_EXTENSION_LENGTH
  }

  lemma DottedLetters(extension: string)
    requires |extension| < MAX_EXTENSION_LENGTH
    ensures Letters(DottedExtension(extension)) == Letters(extension)
  {
    LettersConcat(".", extension);
    NoLetters(".");
  }

  lemma KeepsLetters(stem: string, dotted: string, a: string, b: string)
    requires Letters(stem) == Letters(a) && Letters(dotted) == Letters(b)
    ensures Letters(stem + dotted) == Letters(a + b)
  {
    LettersConcat(stem, dotted);
    LettersConcat(a, b);
  }

  ghost predicate SafeChars(s: string) {
    forall i :: 0 <= i < |s| ==> SafeChar(s[i])
  }

  lemma DottedSafe(extension: string)
    requires SafeChars(extension)
    ensures SafeChars(DottedExtension(extension))
  {
    var dotted := DottedExtension(extension);
    forall i | 0 <= i < |dotted| ensures SafeChar(dotted[i]) {
      if i > 0 {
        assert dotted[i] == extension[i - 1];
      }
    }
  }

  lemma JoinSafe(stem: string, extension: string)
    requires SafeText(stem) && SafeChars(extension)
    ensures SafeText(stem + extension)
  {
  }

  lemma BoundedSafe(wanted: string, dotted: string, fallback: string)
    requires SafeText(wanted) && SafeChars(dotted) && |dotted| <= MAX_EXTENSION_LENGTH
    ensures var r := BoundedStem(wanted, MAX_FILE_NAME_LENGTH - |dotted|, fallback);
      SafeName(r + dotted) && (|wanted| + |dotted| <= MAX_FILE_NAME_LENGTH && !Separator(wanted[|wanted| - 1]) ==>
                               r == wanted)
  {
    BoundedStemSafe(wanted, MAX_FILE_NAME_LENGTH - |dotted|, fallback);
    JoinSafe(BoundedStem(wanted, MAX_FILE_NAME_LENGTH - |dotted|, fallback), dotted);
  }

  /** The stem is kept, or the fallback when nothing of it is left. */
  lemma AssembledFrom(wanted: string, extension: string, fallback: string)
    requires SafeText(wanted) && SafeChars(extension)
    ensures var dotted := DottedExtension(extension);
      var r := BoundedStem(wanted, MAX_FILE_NAME_LENGTH - |dotted|, fallback);
      && SafeName(r + dotted)
      && (|wanted| <= MAX_FILE_NAME_LENGTH - MAX_EXTENSION_LENGTH && !Separator(wanted[|wanted| - 1]) ==> r == wanted)
  {
    DottedSafe(extension);
    BoundedSafe(wanted, DottedExtension(extension), fallback);
  }

  lemma AssembledSafe(stem: string, extension: string, fallback: string)
    requires Token(stem) && SafeChars(extension)
    ensures SafeText(fallback) || stem != "" ==> SafeName(Assembled(stem, extension, fallback))
    ensures UsableFallback(fallback) && stem == "" ==> fallback <= Assembled(stem, extension, fallback)
  {
    if SafeText(fallback) || stem != "" {
      AssembledFrom(if stem == "" then fallback else stem, extension, fallback);
    }
  }

  lemma AssembledLetters(stem: string, extension: string, fallback: string, a: string, b: string)
    requires Token(stem) && SafeChars(extension)
    requires Letters(stem) == Letters(a) && |stem| <= |a|
    requires Letters(extension) == Letters(b) && |extension| <= |b| < MAX_EXTENSION_LENGTH
    requires Letters(a) != "" && |a| + |b| <= MAX_FILE_NAME_LENGTH - MAX_EXTENSION_LENGTH
    ensures Letters(Assembled(stem, extension, fallback)) == Letters(a + b)
  {
    var dotted := DottedExtension(extension);
    assert stem != "";
    DottedSafe(extension);
    BoundedSafe(stem, dotted, fallback);
    assert Assembled(stem, extension, fallback) == stem + dotted;
    DottedLetters(extension);
    KeepsLetters(stem, dotted, a, b);
  }

  lemma TrimSafe(s: string)
    requires SafeText(s)
    ensures TrimLeft(s, {'-', '.'}) == s && Trim(s, {'-', '.'}) <= s && SafeText(Trim(s, {'-', '.'}))
  {
    assert s[0] !in {'-', '.'};
  }

  function BoundedStem(stem: string, limit: nat, fallback: string): string
    requires limit >= 1
  {
    var trimmed := Trim(if |stem| > limit then stem[..limit] else stem, {'-', '.'});
    if trimmed == "" then fallback else trimmed
  }

  lemma BoundedStemSafe(stem: string, limit: nat, fallback: string)
    requires limit >= 1 && SafeText(stem)
    ensures var r := BoundedStem(stem, limit, fallback); SafeText(r) && |r| <= limit && r <= stem
    ensures |stem| <= limit && !Separator(stem[|stem| - 1]) ==> BoundedStem(stem, limit, fallback) == stem
  {
    var bounded := if |stem| > limit then stem[..limit] else stem;
    TrimSafe(bounded);
  }

  lemma TokenHasLetters(s: string)
    requires Token(s) && s != ""
    ensures Letters(s) != ""
  {
    assert s == s[..|s| - 1] + [s[|s| - 1]];
  }

  // ---------------------------------------------------------------- distinct names

  function Decimal(n: nat): string {
    if n < 10 then ['0' + n as char] else Decimal(n / 10) + ['0' + (n % 10) as char]
  }

  ghost function Value(s: string): int {
    if s == "" then 0 else Value(s[..|s| - 1]) * 10 + (s[|s| - 1] as int - '0' as int)
  }

  lemma {:induction false} DecimalValue(n: nat)
    ensures Value(Decimal(n)) == n
  {
    var d := Decimal(n);
    if n < 10 {
      assert d[..0] == "";
    } else {
      DecimalValue(n / 10);
      assert d[..|d| - 1] == Decimal(n / 10);
    }
  }

  function Candidate(name: string, counter: nat): string {
    Stem(name) + "-" + Decimal(counter) + Ext(name)
  }

  lemma CandidatesDiffer(name: string, j: nat, k: nat)
    requires Candidate(name, j) == Candidate(name, k)
    ensures j == k
  {
    var a, b := Candidate(name, j), Candidate(name, k);
    var from := |Stem(name)| + 1;
    assert |Decimal(j)| == |Decimal(k)|;
    assert a[from..from + |Decimal(j)|] == Decimal(j);
    assert b[from..from + |Decimal(k)|] == Decimal(k);
    DecimalValue(j);
    DecimalValue(k);
  }

  /** The candidates tried so far. */
  ghost function Tried(name: string, counter: nat): set<string> {
    set k: nat | 2 <= k < counter :: Candidate(name, k)
  }

  lemma {:induction false} TriedSize(name: string, counter: nat)
    requires counter >= 2
    ensures |Tried(name, counter)| == counter - 2
  {
    if counter == 2 {
      assert Tried(name, 2) == {};
    } else {
      TriedSize(name, counter - 1);
      assert Tried(name, counter) == Tried(name, counter - 1) + {Candidate(name, counter - 1)};
      forall k: nat | 2 <= k < counter - 1 ensures Candidate(name, k) != Candidate(name, counter - 1) {
        if Candidate(name, k) == Candidate(name, counter - 1) {
          CandidatesDiffer(name, k, counter - 1);
        }
      }
    }
  }

  class NameTable {
    var taken: set<string>

    constructor ()
      ensures taken == {}
    {
      taken := {};
    }

    /** A name nobody in the job has, recorded as taken: the wanted one if it is free,
        else the first free numbered variant.  The search ends because the variants
        differ and only finitely many names are taken. */
    method UniqueFileName(name: string) returns (r: string)
      modifies this
      ensures r !in old(taken) && taken == old(taken) + {r}
      ensures name !in old(taken) ==> r == name
      ensures name in old(taken) ==>
                exists k: nat :: k >= 2 && r == Candidate(name, k)
                                 && forall j: nat :: 2 <= j < k ==> Candidate(name, j) in old(taken)
    {
      if name !in taken {
        taken := taken + {name};
        return name;
      }
      var counter := 2;
      TriedSize(name, 2);
      while Candidate(name, counter) in taken
        invariant counter >= 2 && taken == old(taken)
        invariant forall j: nat :: 2 <= j < counter ==> Candidate(name, j) in taken
        decreases |taken| + 2 - counter
      {
        assert Tried(name, counter + 1) <= taken;
        TriedSize(name, counter + 1);
        SubsetSize(Tried(name, counter + 1), taken);
        counter := counter + 1;
      }
      r := Candidate(name, counter);
      taken := taken + {r};
    }
  }

  lemma CandidateLength(name: string, k: nat)
    ensures |Candidate(name, k)| == |name| + 1 + |Decimal(k)|
  {
  }

  lemma {:induction false} DecimalSafe(k: nat)
    ensures forall i :: 0 <= i < |Decimal(k)| ==> SafeChar(Decimal(k)[i])
  {
    if k >= 10 {
      DecimalSafe(k / 10);
    }
  }

  /** A numbered variant of a safe name has safe characters, and fits exactly when
      the suffix does: the name is not shortened to make room. */
  lemma VariantSafeIff(name: string, k: nat)
    requires SafeName(name)
    ensures SafeText(Candidate(name, k))
    ensures SafeName(Candidate(name, k)) <==> |name| <= MAX_FILE_NAME_LENGTH - 1 - |Decimal(k)|
  {
    CandidateLength(name, k);
    VariantSafe(name, k);
  }

  lemma SafeCharsAppend(a: string, b: string)
    requires SafeChars(a) && SafeChars(b)
    ensures SafeChars(a + b)
  {
  }

  lemma VariantSafe(name: string, k: nat)
    requires SafeText(name)
    ensures SafeText(Candidate(name, k))
  {
    var stem, ext := Stem(name), Ext(name);
    DecimalSafe(k);
    forall i | 0 <= i < |ext| ensures SafeChar(ext[i]) {
      assert ext[i] == name[|stem| + i];
    }
    assert SafeChars(stem) && SafeChars("-");
    SafeCharsAppend(stem, "-");
    SafeCharsAppend(stem + "-", Decimal(k));
    SafeCharsAppend(stem + "-" + Decimal(k), ext);
    assert stem == "" ==> ext == name;
    assert stem != "" ==> Candidate(name, k)[0] == name[0];
  }

  /** The documented bound on stored names is exceeded by the second of two files
      that share a name of full length. */
  lemma VariantTooLong() returns (name: string)
    ensures SafeName(name) && |Candidate(name, 2)| == MAX_FILE_NAME_LENGTH + 2
  {
    name := seq(100, i => 'a');
    CandidateLength(name, 2);
  }

  // ---------------------------------------------------------------- resolving

  type Path = seq<string>

  predicate Plain(name: string) {
    name != "" && '/' !in name && '\\' !in name && name != "." && name != ".."
  }

  /** Lexical cleaning of an absolute path given by its components. */
  function Clean(p: Path): Path {
    if p == [] then []
    else
      var front, last := Clean(p[..|p| - 1]), p[|p| - 1];
      if last == "" || last == "." then front
      else if last == ".." then (if front == [] then [] else front[..|front| - 1])
      else front + [last]
  }

  predicate Contains(parent: Path, candidate: Path) {
    Clean(parent) <= Clean(candidate)
  }

  function Resolve(dir: Path, name: string): Option<Path> {
    if name == "" then None
    else if '/' in name || '\\' in name then None
    else if name == "." || name == ".." then None
    else if !Contains(dir, dir + [name]) then None
    else Some(dir + [name])
  }

  /** A plain name always resolves, to the file of that name in the directory; any
      other is refused.  The final containment check never decides. */
  lemma ResolveIffPlain(dir: Path, name: string)
    ensures Resolve(dir, name).Some? <==> Plain(name)
    ensures Resolve(dir, name).Some? ==> Clean(Resolve(dir, name).value) == Clean(dir) + [name]
  {
    assert (dir + [name])[..|dir|] == dir;
  }

  /** So every stored name resolves, and distinct names to distinct files. */
  lemma SafeNamesResolveApart(dir: Path, a: string, b: string)
    requires SafeText(a) && SafeText(b) && a != b
    ensures Resolve(dir, a).Some? && Resolve(dir, b).Some?
    ensures Clean(Resolve(dir, a).value) != Clean(Resolve(dir, b).value)
  {
    ResolveIffPlain(dir, a);
    ResolveIffPlain(dir, b);
    var x, y := Clean(dir) + [a], Clean(dir) + [b];
    assert x[|x| - 1] != y[|y| - 1];
  }
}
