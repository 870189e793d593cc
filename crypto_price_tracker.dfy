/** The search box of the `CryptoPriceTracker` component
    (frontend/src/components/CryptoPriceTracker.tsx): four state variables and the handlers that
    update them. The list of known symbols, a module-level variable in the source, is a parameter. */
module CryptoPriceTracker {
  import opened JsArray

  /** The characters JavaScript's `String.prototype.trim` removes: white space (tab, vertical
      tab, form feed, space, no-break space, the byte order mark and the other space separators)
      and line terminators. */
  predicate IsWhitespace(c: char) {
    || c == '\t' || c == '\n' || c == '\U{000B}' || c == '\U{000C}' || c == '\r' || c == ' '
    || c == '\U{00A0}' || c == '\U{1680}' || ('\U{2000}' <= c <= '\U{200A}')
    || c == '\U{2028}' || c == '\U{2029}' || c == '\U{202F}' || c == '\U{205F}'
    || c == '\U{3000}' || c == '\U{FEFF}'
  }

  /** How many characters of white space `s` starts with. */
  function LeadingWhitespace(s: string): (k: nat)
    ensures k <= |s|
    ensures forall i :: 0 <= i < k ==> IsWhitespace(s[i])
    ensures k < |s| ==> !IsWhitespace(s[k])
    decreases |s|
  {
    if s == [] || !IsWhitespace(s[0]) then 0 else 1 + LeadingWhitespace(s[1..])
  }

  /** How many characters of white space `s` ends with. */
  function TrailingWhitespace(s: string): (k: nat)
    ensures k <= |s|
    ensures forall i :: |s| - k <= i < |s| ==> IsWhitespace(s[i])
    ensures k < |s| ==> !IsWhitespace(s[|s| - 1 - k])
    decreases |s|
  {
    if s == [] || !IsWhitespace(s[|s| - 1]) then 0 else 1 + TrailingWhitespace(s[..|s| - 1])
  }

  /** `s.trim()`: the part of `s` between its leading and its trailing white space, which is
      empty when `s` is all white space. */
  function Trim(s: string): (r: string)
    ensures r != [] ==> LeadingWhitespace(s) < |s| - TrailingWhitespace(s) && r == s[LeadingWhitespace(s)..|s| - TrailingWhitespace(s)]
    ensures r != [] ==> !IsWhitespace(r[0]) && !IsWhitespace(r[|r| - 1])
  {
    var lead := LeadingWhitespace(s);
    if lead == |s| then []
    else
      // s[lead] is not white space, so the trailing white space starts after it
      s[lead..|s| - TrailingWhitespace(s)]
  }

  /** `s.trim()` is falsy exactly when `s` is all white space. */
  lemma TrimEmptyIff(s: string)
    ensures Trim(s) == [] <==> forall i :: 0 <= i < |s| ==> IsWhitespace(s[i])
  {
    if Trim(s) != [] {
      var k := LeadingWhitespace(s);
      assert !IsWhitespace(s[k]);
    }
  }

  /** Trimming keeps a string free of lower-case letters. */
  lemma TrimNoLowercase(s: string)
    requires NoLowercase(s)
    ensures NoLowercase(Trim(s))
  {
    if Trim(s) != [] {
      var lo := LeadingWhitespace(s);
      forall i | 0 <= i < |Trim(s)| ensures !('a' <= Trim(s)[i] <= 'z') {
        assert Trim(s)[i] == s[lo + i];
      }
    }
  }

  /** ASCII upper-casing of one character. */
  function UpperChar(c: char): (u: char)
    ensures 'a' <= c <= 'z' ==> 'A' <= u <= 'Z' && u as int - 'A' as int == c as int - 'a' as int
    ensures !('a' <= c <= 'z') ==> u == c
  {
    if 'a' <= c <= 'z' then (c as int - 'a' as int + 'A' as int) as char else c
  }

  /** `s.toUpperCase()`, on ASCII letters. */
  function ToUpperCase(s: string): (r: string)
    ensures |r| == |s|
  {
    seq(|s|, i requires 0 <= i < |s| => UpperChar(s[i]))
  }

  /** No lower-case ASCII letter occurs in `s`. */
  predicate NoLowercase(s: string) {
    forall i :: 0 <= i < |s| ==> !('a' <= s[i] <= 'z')
  }

  /** Upper-casing leaves no lower-case letter, and changes nothing in a string that has none;
      so upper-casing twice is upper-casing once. */
  lemma ToUpperCaseNormalizes(s: string)
    ensures NoLowercase(ToUpperCase(s))
    ensures NoLowercase(s) <==> ToUpperCase(s) == s
    ensures ToUpperCase(ToUpperCase(s)) == ToUpperCase(s)
  {
    if ToUpperCase(s) == s {
      assert NoLowercase(ToUpperCase(s));
    }
  }

  /** What a search submits after the box was edited: the edit upper-cased the text, so the
      search's own upper-casing changes nothing and the symbol is just the trimmed text. */
  lemma SearchAfterChange(raw: string)
    ensures ToUpperCase(Trim(ToUpperCase(raw))) == Trim(ToUpperCase(raw))
  {
    var u := ToUpperCase(raw);
    ToUpperCaseNormalizes(raw);
    TrimNoLowercase(u);
    ToUpperCaseNormalizes(Trim(u));
  }

  /** The suggestions for a typed value: the known symbols that start with it, in list order. */
  function Suggestions(known: seq<string>, value: string): (r: seq<string>)
    ensures IsSubsequence(r, known)
    ensures forall s :: s in r <==> s in known && value <= s
    ensures forall s :: multiset(r)[s] == if value <= s then multiset(known)[s] else 0
  {
    Filter(known, (s: string) => value <= s)
  }

  /** The component's search state. */
  class SearchBox {
    var inputSymbol: string
    var symbol: string
    var suggestions: seq<string>
    var showDropdown: bool

    /** Every suggestion starts with the text in the box. (The dropdown flag may be set with no
        suggestions, as focusing the box does; the list is drawn only when both hold.) */
    predicate Valid()
      reads this
    {
      forall s :: s in suggestions ==> inputSymbol <= s
    }

    constructor()
      ensures inputSymbol == "BTC" && symbol == "BTC" && suggestions == [] && !showDropdown
      ensures Valid()
    {
      inputSymbol := "BTC";
      symbol := "BTC";
      suggestions := [];
      showDropdown := false;
    }

    /** `handleChange`: the box shows the upper-cased text; a non-empty text lists the known
        symbols starting with it and opens the dropdown when there are any; an empty text
        clears the list and closes the dropdown. */
    method HandleChange(raw: string, known: seq<string>)
      modifies this
      ensures Valid()
      ensures inputSymbol == ToUpperCase(raw) && symbol == old(symbol)
      ensures raw != [] ==> suggestions == Suggestions(known, inputSymbol) && (showDropdown <==> suggestions != [])
      ensures raw == [] ==> suggestions == [] && !showDropdown
    {
      var value := ToUpperCase(raw);
      inputSymbol := value;
      if value != [] {
        var filtered := Suggestions(known, value);
        suggestions := filtered;
        showDropdown := |filtered| > 0;
      } else {
        suggestions := [];
        showDropdown := false;
      }
    }

    /** `handleSearch`: submits the trimmed, upper-cased text as the symbol, unless it is blank;
        nothing else changes. */
    method HandleSearch()
      requires Valid()
      modifies this
      ensures Valid()
      ensures Trim(old(inputSymbol)) != [] ==> symbol == ToUpperCase(Trim(old(inputSymbol)))
      ensures Trim(old(inputSymbol)) == [] ==> symbol == old(symbol)
      ensures inputSymbol == old(inputSymbol) && suggestions == old(suggestions) && showDropdown == old(showDropdown)
    {
      var trimmed := Trim(inputSymbol);
      if trimmed != [] {
        symbol := ToUpperCase(trimmed);
      }
    }

    /** `handleKeyPress`: Enter searches and then closes the dropdown; any other key changes
        nothing. */
    method HandleKeyPress(key: string)
      requires Valid()
      modifies this
      ensures Valid()
      ensures key == "Enter" && Trim(old(inputSymbol)) != [] ==> symbol == ToUpperCase(Trim(old(inputSymbol)))
      ensures key == "Enter" && Trim(old(inputSymbol)) == [] ==> symbol == old(symbol)
      ensures key == "Enter" ==> inputSymbol == old(inputSymbol) && suggestions == old(suggestions) && !showDropdown
      ensures key != "Enter" ==>
                inputSymbol == old(inputSymbol) && symbol == old(symbol) && suggestions == old(suggestions) && showDropdown == old(showDropdown)
    {
      if key == "Enter" {
        HandleSearch();
        showDropdown := false;
      }
    }

    /** `onFocus`: opens the dropdown, whatever the suggestions are. */
    method HandleFocus()
      modifies this
      ensures showDropdown
      ensures inputSymbol == old(inputSymbol) && symbol == old(symbol) && suggestions == old(suggestions)
    {
      showDropdown := true;
    }

    /** `onBlur`, once its 200 ms timer has fired: closes the dropdown and changes nothing else. */
    method HandleBlur()
      modifies this
      ensures !showDropdown
      ensures inputSymbol == old(inputSymbol) && symbol == old(symbol) && suggestions == old(suggestions)
    {
      showDropdown := false;
    }

    /** The suggestions the dropdown draws: all of them when it is open and the list is
        non-empty, none otherwise; each drawn one starts with the text in the box. */
    function Drawn(): (r: seq<string>)
      reads this
      requires Valid()
      ensures r != [] <==> showDropdown && suggestions != []
      ensures r != [] ==> r == suggestions
      ensures forall s :: s in r ==> inputSymbol <= s
    {
      if showDropdown && |suggestions| > 0 then suggestions else []
    }

    /** `handleSuggestionClick`: the chosen symbol goes into the box and is searched, the list
        is cleared and the dropdown closed. */
    method HandleSuggestionClick(choice: string)
      modifies this
      ensures Valid()
      ensures inputSymbol == choice && symbol == choice && suggestions == [] && !showDropdown
    {
      inputSymbol := choice;
      symbol := choice;
      suggestions := [];
      showDropdown := false;
    }
  }
}
