/** The dashboard's recent-customers card: the avatar initials derived from a
    customer's name, and the choice of which customers are listed. */
module RecentCustomers {
  import opened Types
  import JsText

  /** `n[0]` on one piece of the split name: undefined for an empty piece. */
  function FirstChar(piece: string): Option<char> {
    if |piece| == 0 then None else Some(piece[0])
  }

  /** `.map(n => n[0]).join('')`: an undefined entry joins as the empty string. */
  function JoinFirstChars(pieces: seq<string>): string
    decreases |pieces|
  {
    if |pieces| == 0 then ""
    else (match FirstChar(pieces[0]) case None => "" case Some(c) => [c]) + JoinFirstChars(pieces[1..])
  }

  /** `getInitials(name)`. */
  function GetInitials(name: string): string {
    JsText.Substring(JsText.ToUpper(JoinFirstChars(JsText.Split(name, ' '))), 0, 2)
  }

  /** The characters that begin a word: not a space, and either first in the
      string or right after a space (`afterSpace` says whether the character
      before `s` was a space or `s` begins the name). */
  function WordStarts(s: string, afterSpace: bool): string
    decreases |s|
  {
    if |s| == 0 then ""
    else (if s[0] != ' ' && afterSpace then [s[0]] else "") + WordStarts(s[1..], s[0] == ' ')
  }

  /** Splitting on spaces and joining the first characters of the pieces
      gives exactly the word-start characters; empty pieces, which come from
      leading, trailing or repeated spaces, contribute nothing. */
  lemma {:induction false} FirstCharsAreWordStarts(s: string)
    ensures JoinFirstChars(JsText.Split(s, ' ')) == WordStarts(s, true)
    ensures JoinFirstChars(JsText.Split(s, ' ')[1..]) == WordStarts(s, false)
    decreases |s|
  {
    if |s| > 0 {
      var t := s[1..];
      var rest := JsText.Split(t, ' ');
      FirstCharsAreWordStarts(t);
      if s[0] == ' ' {
        assert JsText.Split(s, ' ') == [""] + rest;
        assert ([""] + rest)[1..] == rest;
      } else {
        var pieces := JsText.Split(s, ' ');
        assert pieces == [[s[0]] + rest[0]] + rest[1..];
        assert pieces[1..] == rest[1..];
        assert FirstChar(pieces[0]) == Some(s[0]);
      }
    }
  }

  /** The initials are at most two characters: the upper-cased first
      characters of the first two words of the name. */
  lemma InitialsSpec(name: string)
    ensures var all := JsText.ToUpper(WordStarts(name, true));
            var r := GetInitials(name);
            |r| <= 2 && r == all[..if |all| < 2 then |all| else 2]
  {
    FirstCharsAreWordStarts(name);
  }

  /** A name of spaces only (or the empty name) has no initials. */
  lemma {:induction false} NoWordsNoInitials(s: string, afterSpace: bool)
    requires forall k :: 0 <= k < |s| ==> s[k] == ' '
    ensures WordStarts(s, afterSpace) == ""
    decreases |s|
  {
    if |s| > 0 {
      NoWordsNoInitials(s[1..], true);
    }
  }

  lemma BlankNameHasNoInitials(name: string)
    requires forall k :: 0 <= k < |name| ==> name[k] == ' '
    ensures GetInitials(name) == ""
  {
    NoWordsNoInitials(name, true);
    InitialsSpec(name);
  }

  /** Trailing spaces add no word start. */
  lemma {:induction false} TrailingSpaceIgnored(s: string, afterSpace: bool)
    ensures WordStarts(s + " ", afterSpace) == WordStarts(s, afterSpace)
    decreases |s|
  {
    if |s| == 0 {
      assert s + " " == " ";
    } else {
      assert (s + " ")[1..] == s[1..] + " ";
      TrailingSpaceIgnored(s[1..], s[0] == ' ');
    }
  }

  /** Spaces around the name do not change its initials. */
  lemma SurroundingSpacesIgnored(name: string)
    ensures GetInitials(" " + name) == GetInitials(name)
    ensures GetInitials(name + " ") == GetInitials(name)
  {
    InitialsSpec(name);
    InitialsSpec(" " + name);
    InitialsSpec(name + " ");
    assert (" " + name)[1..] == name;
    TrailingSpaceIgnored(name, true);
  }

  /** Two words give two initials, upper-cased. */
  lemma TwoWordExample()
    ensures GetInitials("al b") == "AB"
  {
  }

  /** `customers.slice(0, 5)`: the customers the card lists. */
  function DisplayedCustomers(customers: seq<Customer>): seq<Customer> {
    JsText.Slice(customers, 0, 5)
  }

  /** The card lists the first five customers, or all of them when there are
      fewer, in the order given. */
  lemma DisplayedAreFirstFive(customers: seq<Customer>)
    ensures var shown := DisplayedCustomers(customers);
            |shown| == (if |customers| < 5 then |customers| else 5)
            && forall k :: 0 <= k < |shown| ==> shown[k] == customers[k]
  {
  }

  /** The "No customers yet" message replaces the list exactly when there
      are no customers. */
  predicate ShowsEmptyMessage(customers: seq<Customer>) {
    !(|customers| > 0)
  }

  lemma EmptyMessageIffNothingDisplayed(customers: seq<Customer>)
    ensures ShowsEmptyMessage(customers) <==> DisplayedCustomers(customers) == []
  {
  }
}
