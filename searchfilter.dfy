/** The search box's filter (src/gui/filterlineedit.cpp:79-157): the pattern
    built from the typed text, its two option flags, and how those flags are
    loaded from and saved to the settings store.

    The regular-expression escaping function of the GUI library is not part
    of this model; every operation that needs it takes it as the parameter
    `escape`, about which nothing is known except where a lemma says so. */
module SearchFilter {

  datatype Option<T> = None | Some(value: T)

  datatype CaseSensitivity = CaseSensitive | CaseInsensitive

  /** A compiled filter: its pattern text and its case sensitivity. */
  datatype RegExp = RegExp(pattern: string, sensitivity: CaseSensitivity)

  /** Placed between two escaped search words: matches any run of characters. */
  const Separator: string := ".*"

  /** Settings-store keys of the two option flags. */
  const RegexKey: string := "filter_regular_expression"
  const CaseInsensitiveKey: string := "filter_case_insensitive"

  // ---------------------------------------------------------------------
  // Splitting the text into search words
  // ---------------------------------------------------------------------

  /** A white-space character in the sense of the `\s` class of the
      regular-expression engine: the control characters tab to carriage
      return and the Unicode space, line and paragraph separators. U+0085
      is a control character, not a separator, so it is not white space. */
  predicate IsSpace(c: char)
  {
    var n := c as int;
    (9 <= n <= 13) || n == 0x20 || n == 0xA0 || n == 0x1680
    || (0x2000 <= n <= 0x200A) || n == 0x2028 || n == 0x2029 || n == 0x202F
    || n == 0x205F || n == 0x3000
  }

  predicate AllSpace(s: string)
  {
    forall i :: 0 <= i < |s| ==> IsSpace(s[i])
  }

  predicate NoSpace(s: string)
  {
    forall i :: 0 <= i < |s| ==> !IsSpace(s[i])
  }

  /** The pieces of `s` between white-space characters, empty pieces
      included: one more piece than there are white-space characters. */
  function Split(s: string): (parts: seq<string>)
    ensures |parts| >= 1
    ensures forall k :: 0 <= k < |parts| ==> NoSpace(parts[k])
  {
    if s == [] then [""]
    else
      var rest := Split(s[1..]);
      if IsSpace(s[0]) then [""] + rest
      else [[s[0]] + rest[0]] + rest[1..]
  }

  /** `parts` without its empty entries, in order. */
  function SkipEmpty(parts: seq<string>): (r: seq<string>)
    ensures |r| <= |parts|
    ensures forall k :: 0 <= k < |r| ==> r[k] != [] && r[k] in parts
    ensures forall x :: x in r <==> x in parts && x != []
  {
    if parts == [] then []
    else if parts[0] == [] then SkipEmpty(parts[1..])
    else [parts[0]] + SkipEmpty(parts[1..])
  }

  /** The search words of `s`: split at white space, empty parts skipped. */
  function Tokens(s: string): (tokens: seq<string>)
    ensures forall k :: 0 <= k < |tokens| ==> tokens[k] != [] && NoSpace(tokens[k])
  {
    SkipEmpty(Split(s))
  }

  /** All of `parts` glued together. */
  function Concat(parts: seq<string>): string
  {
    if parts == [] then "" else parts[0] + Concat(parts[1..])
  }

  /** `s` with every white-space character deleted. */
  function RemoveSpaces(s: string): string
  {
    if s == [] then ""
    else if IsSpace(s[0]) then RemoveSpaces(s[1..])
    else [s[0]] + RemoveSpaces(s[1..])
  }

  /** Splitting at one white-space character splits the text in two. */
  lemma {:induction false} SplitAtSpace(a: string, c: char, b: string)
    requires IsSpace(c)
    ensures Split(a + [c] + b) == Split(a) + Split(b)
  {
    if a == [] {
      assert a + [c] + b == [c] + b;
      assert ([c] + b)[1..] == b;
    } else {
      assert (a + [c] + b)[1..] == a[1..] + [c] + b;
      SplitAtSpace(a[1..], c, b);
    }
  }

  /** A text without white space is one piece. */
  lemma {:induction false} SplitOfWord(w: string)
    requires NoSpace(w)
    ensures Split(w) == [w]
  {
    if w != [] {
      assert NoSpace(w[1..]) by {
        forall i | 0 <= i < |w[1..]| ensures !IsSpace(w[1..][i]) {
          assert w[1..][i] == w[i + 1];
        }
      }
      SplitOfWord(w[1..]);
      assert [w[0]] + w[1..] == w;
    }
  }

  /** A non-empty text without white space is a single word. Together with
      TokensAtSpace this determines the words of every text: each word is a
      maximal run of characters that are not white space. */
  lemma TokensOfWord(w: string)
    requires w != [] && NoSpace(w)
    ensures Tokens(w) == [w]
  {
    SplitOfWord(w);
    assert SkipEmpty([w]) == [w] + SkipEmpty([]);
  }

  lemma {:induction false} SkipEmptyAppend(x: seq<string>, y: seq<string>)
    ensures SkipEmpty(x + y) == SkipEmpty(x) + SkipEmpty(y)
  {
    if x == [] {
      assert x + y == y;
    } else {
      assert (x + y)[1..] == x[1..] + y;
      SkipEmptyAppend(x[1..], y);
    }
  }

  /** The words of a text are the words before a white-space character
      followed by the words after it. */
  lemma TokensAtSpace(a: string, c: char, b: string)
    requires IsSpace(c)
    ensures Tokens(a + [c] + b) == Tokens(a) + Tokens(b)
  {
    SplitAtSpace(a, c, b);
    SkipEmptyAppend(Split(a), Split(b));
  }

  /** A run of two white-space characters separates words exactly as one
      does, so splitting at single characters and skipping empty parts is
      the same as splitting at runs of white space. */
  lemma TokensRunCollapse(a: string, c: char, d: char, b: string)
    requires IsSpace(c) && IsSpace(d)
    ensures Tokens(a + [c, d] + b) == Tokens(a + [c] + b)
  {
    assert a + [c, d] + b == a + [c] + ([d] + b);
    TokensAtSpace(a, c, [d] + b);
    assert [d] + b == [] + [d] + b;
    TokensAtSpace([], d, b);
    assert Tokens([]) == [];
    TokensAtSpace(a, c, b);
  }

  lemma {:induction false} ConcatSkipEmpty(parts: seq<string>)
    ensures Concat(SkipEmpty(parts)) == Concat(parts)
  {
    if parts != [] {
      ConcatSkipEmpty(parts[1..]);
    }
  }

  lemma {:induction false} ConcatSplit(s: string)
    ensures Concat(Split(s)) == RemoveSpaces(s)
  {
    if s != [] {
      ConcatSplit(s[1..]);
      var rest := Split(s[1..]);
      assert Concat(rest) == rest[0] + Concat(rest[1..]);
      if !IsSpace(s[0]) {
        var parts := [[s[0]] + rest[0]] + rest[1..];
        assert parts[1..] == rest[1..];
      }
    }
  }

  /** The words, glued together, are the text without its white space: no
      character is lost and the order is kept. */
  lemma TokensConcat(s: string)
    ensures Concat(Tokens(s)) == RemoveSpaces(s)
  {
    ConcatSkipEmpty(Split(s));
    ConcatSplit(s);
  }

  lemma {:induction false} RemoveSpacesEmpty(s: string)
    ensures RemoveSpaces(s) == "" <==> AllSpace(s)
  {
    if s != [] {
      RemoveSpacesEmpty(s[1..]);
      if IsSpace(s[0]) && AllSpace(s[1..]) {
        forall i | 0 <= i < |s| ensures IsSpace(s[i]) {
          if i > 0 { assert s[i] == s[1..][i - 1]; }
        }
      }
    }
  }

  lemma ConcatNonEmpty(parts: seq<string>)
    requires parts != [] && parts[0] != []
    ensures Concat(parts) != ""
  {
    assert |Concat(parts)| >= |parts[0]|;
  }

  /** A text has no words exactly when it is empty or all white space. */
  lemma TokensEmptyIff(s: string)
    ensures Tokens(s) == [] <==> AllSpace(s)
  {
    TokensConcat(s);
    RemoveSpacesEmpty(s);
    if Tokens(s) != [] {
      ConcatNonEmpty(Tokens(s));
    }
  }

  // ---------------------------------------------------------------------
  // Building the pattern
  // ---------------------------------------------------------------------

  /** One step of the builder: the separator goes in front of the new part
      only when the pattern built so far is not empty. */
  function AppendPart(pattern: string, part: string): string
  {
    if pattern == "" then part else pattern + Separator + part
  }

  /** The builder run over `parts` from first to last. */
  function Build(parts: seq<string>): string
  {
    if parts == [] then "" else AppendPart(Build(parts[..|parts| - 1]), parts[|parts| - 1])
  }

  /** Every word escaped. */
  function EscapeAll(escape: string -> string, tokens: seq<string>): seq<string>
  {
    seq(|tokens|, k requires 0 <= k < |tokens| => escape(tokens[k]))
  }

  /** The pattern of the filter: the text itself in regular-expression
      mode, otherwise its escaped words put through the builder. */
  function Pattern(text: string, regex: bool, escape: string -> string): string
  {
    if regex then text else Build(EscapeAll(escape, Tokens(text)))
  }

  function Sensitivity(caseInsensitive: bool): CaseSensitivity
  {
    if caseInsensitive then CaseInsensitive else CaseSensitive
  }

  /** Reference definition: `parts` with `sep` between each two neighbours. */
  function Join(parts: seq<string>, sep: string): string
  {
    if parts == [] then ""
    else if |parts| == 1 then parts[0]
    else parts[0] + sep + Join(parts[1..], sep)
  }

  /** Sum of the lengths of `parts`. */
  function TotalLength(parts: seq<string>): nat
  {
    if parts == [] then 0 else |parts[0]| + TotalLength(parts[1..])
  }

  /** An escaping function that never turns a non-empty word into nothing,
      as escaping, which only inserts characters, does not. */
  ghost predicate NonErasing(escape: string -> string)
  {
    forall t :: t != [] ==> escape(t) != []
  }

  /** Joining one more part adds one separator and the part at the end. */
  lemma {:induction false} JoinSnoc(parts: seq<string>, p: string, sep: string)
    requires parts != []
    ensures Join(parts + [p], sep) == Join(parts, sep) + sep + p
  {
    if |parts| > 1 {
      assert (parts + [p])[1..] == parts[1..] + [p];
      JoinSnoc(parts[1..], p, sep);
    }
  }

  /** With no empty part, the builder puts exactly one separator between
      each two neighbours and none anywhere else. */
  lemma {:induction false} BuildIsJoin(parts: seq<string>)
    requires forall k :: 0 <= k < |parts| ==> parts[k] != []
    ensures Build(parts) == Join(parts, Separator)
  {
    if parts != [] {
      var init := parts[..|parts| - 1];
      BuildIsJoin(init);
      if init == [] {
        assert parts == [parts[0]];
      } else {
        assert init[0] == parts[0];
        assert |Join(init, Separator)| >= |init[0]| by { JoinStartsWithFirst(init, Separator); }
        JoinSnoc(init, parts[|parts| - 1], Separator);
        assert init + [parts[|parts| - 1]] == parts;
      }
    }
  }

  /** The joined string begins with the first part. */
  lemma JoinStartsWithFirst(parts: seq<string>, sep: string)
    requires parts != []
    ensures parts[0] <= Join(parts, sep)
  {
  }

  /** The joined string ends with the last part. */
  lemma {:induction false} JoinEndsWithLast(parts: seq<string>, sep: string)
    requires parts != []
    ensures var j, last := Join(parts, sep), parts[|parts| - 1];
      |last| <= |j| && j[|j| - |last|..] == last
  {
    if |parts| > 1 {
      JoinEndsWithLast(parts[1..], sep);
    }
  }

  /** A join of k parts is as long as the parts plus k - 1 separators. */
  lemma {:induction false} JoinLength(parts: seq<string>, sep: string)
    requires parts != []
    ensures |Join(parts, sep)| == TotalLength(parts) + |sep| * (|parts| - 1)
  {
    if |parts| > 1 {
      JoinLength(parts[1..], sep);
    }
  }

  /** In plain-text mode the pattern is the escaped words in order, one
      separator between each two neighbours, none before the first and none
      after the last; its length is theirs plus two per separator. */
  lemma PlainPatternShape(text: string, escape: string -> string)
    requires NonErasing(escape)
    ensures var parts := EscapeAll(escape, Tokens(text));
      var p := Pattern(text, false, escape);
      && p == Join(parts, Separator)
      && (parts != [] ==> parts[0] <= p && p[|p| - |parts[|parts| - 1]|..] == parts[|parts| - 1])
      && (parts != [] ==> |p| == TotalLength(parts) + 2 * (|parts| - 1))
  {
    var parts := EscapeAll(escape, Tokens(text));
    forall k | 0 <= k < |parts| ensures parts[k] != [] {
      assert Tokens(text)[k] != [];
    }
    BuildIsJoin(parts);
    if parts != [] {
      JoinStartsWithFirst(parts, Separator);
      JoinEndsWithLast(parts, Separator);
      JoinLength(parts, Separator);
    }
  }

  /** In plain-text mode a text with no words gives the empty pattern; when
      escaping erases nothing, only such texts do. */
  lemma PlainPatternEmpty(text: string, escape: string -> string)
    ensures AllSpace(text) ==> Pattern(text, false, escape) == ""
    ensures NonErasing(escape) ==> (Pattern(text, false, escape) == "" <==> AllSpace(text))
  {
    TokensEmptyIff(text);
    if NonErasing(escape) && !AllSpace(text) {
      var parts := EscapeAll(escape, Tokens(text));
      PlainPatternShape(text, escape);
      assert parts[0] != [];
    }
  }

  /** Setting store lookup: a flag that was never saved reads as set. */
  function StoredFlag(settings: map<string, bool>, key: string): bool
  {
    key !in settings || settings[key]
  }

  /** The store after both flags are saved. */
  function SaveFlags(settings: map<string, bool>, regex: bool, caseInsensitive: bool): map<string, bool>
  {
    settings[RegexKey := regex][CaseInsensitiveKey := caseInsensitive]
  }

  /** Loading after saving gives back the saved flags, and leaves every other
      key as it was; a flag whose key is missing from a store loads as set. */
  lemma SaveThenLoad(settings: map<string, bool>, regex: bool, caseInsensitive: bool)
    ensures StoredFlag(SaveFlags(settings, regex, caseInsensitive), RegexKey) == regex
    ensures StoredFlag(SaveFlags(settings, regex, caseInsensitive), CaseInsensitiveKey) == caseInsensitive
    ensures forall k :: k in settings && k != RegexKey && k != CaseInsensitiveKey ==>
      k in SaveFlags(settings, regex, caseInsensitive) && SaveFlags(settings, regex, caseInsensitive)[k] == settings[k]
    ensures RegexKey !in settings ==> StoredFlag(settings, RegexKey)
    ensures CaseInsensitiveKey !in settings ==> StoredFlag(settings, CaseInsensitiveKey)
  {
  }

  // ---------------------------------------------------------------------
  // The search box
  // ---------------------------------------------------------------------

  /** The search box: its text and the checked state of its two menu
      actions (src/gui/filterlineedit.cpp:49-77). */
  class FilterLineEdit {
    var text: string
    var regexChecked: bool
    var caseInsensitiveChecked: bool

    /** A new search box is empty and both actions are unchecked. */
    constructor ()
      ensures text == "" && !regexChecked && !caseInsensitiveChecked
    {
      text, regexChecked, caseInsensitiveChecked := "", false, false;
    }

    /** The filter for the current text and flags
        (src/gui/filterlineedit.cpp:79-96). It changes nothing, so two calls
        on an unchanged box give the same filter. */
    method Filter(escape: string -> string) returns (re: RegExp)
      ensures re.pattern == Pattern(text, regexChecked, escape)
      ensures regexChecked ==> re.pattern == text
      ensures !regexChecked && AllSpace(text) ==> re.pattern == ""
      ensures re.sensitivity == CaseInsensitive <==> caseInsensitiveChecked
    {
      var sensitivity := Sensitivity(caseInsensitiveChecked);
      var pattern := "";
      if regexChecked {
        pattern := text;
      } else {
        var tokens := Tokens(text);
        for i := 0 to |tokens|
          invariant pattern == Build(EscapeAll(escape, tokens[..i]))
        {
          ghost var done := EscapeAll(escape, tokens[..i + 1]);
          assert done[..i] == EscapeAll(escape, tokens[..i]);
          if pattern != "" {
            pattern := pattern + Separator;
          }
          pattern := pattern + escape(tokens[i]);
        }
        assert tokens[..|tokens|] == tokens;
        PlainPatternEmpty(text, escape);
      }
      re := RegExp(pattern, sensitivity);
    }

    /** Loads both flags from the settings store; a flag that is missing
        loads as set (src/gui/filterlineedit.cpp:98-108). */
    method LoadSettings(settings: map<string, bool>)
      modifies this`regexChecked, this`caseInsensitiveChecked
      ensures regexChecked == StoredFlag(settings, RegexKey)
      ensures caseInsensitiveChecked == StoredFlag(settings, CaseInsensitiveKey)
    {
      regexChecked := StoredFlag(settings, RegexKey);
      caseInsensitiveChecked := StoredFlag(settings, CaseInsensitiveKey);
    }

    /** After a menu action: saves both flags and announces the filter, but
        only when its pattern is not empty (src/gui/filterlineedit.cpp:148-157).
        Returns the new store and the announced filter, if any. */
    method OnMenuAction(settings: map<string, bool>, escape: string -> string)
      returns (stored: map<string, bool>, emitted: Option<RegExp>)
      ensures stored == SaveFlags(settings, regexChecked, caseInsensitiveChecked)
      ensures emitted.Some? <==> Pattern(text, regexChecked, escape) != ""
      ensures emitted.Some? ==> emitted.value == RegExp(Pattern(text, regexChecked, escape),
                                                        Sensitivity(caseInsensitiveChecked))
    {
      stored := SaveFlags(settings, regexChecked, caseInsensitiveChecked);
      var re := Filter(escape);
      if re.pattern != "" {
        emitted := Some(re);
      } else {
        emitted := None;
      }
    }
  }
}
