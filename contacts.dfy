/**
 * Contacts as the payment screens hold them, the select/deselect toggle of
 * `handleContactPress`, and the `contactInitials` badge text.
 */
module Contacts {
  import Text

  /**
   * One entry of the contact lists. The screens compare contacts with `===`, so
   * a contact is an object: the same person listed under "Recent Contacts" and
   * under "All Contacts" is two different contacts.
   */
  class Contact {
    const mobileNumber: string
    const name: string

    constructor (mobileNumber: string, name: string)
      ensures this.mobileNumber == mobileNumber && this.name == name
    {
      this.mobileNumber := mobileNumber;
      this.name := name;
    }
  }

  /**
   * The selection after `handleContactPress(pressed)`: pressing the selected
   * contact deselects it, pressing any other contact selects that one.
   */
  function Toggled(selected: Contact?, pressed: Contact): (r: Contact?)
    ensures r == null <==> pressed == selected
    ensures r != null ==> r == pressed
  {
    if pressed == selected then null else pressed
  }

  /** Pressing the same contact twice from no selection comes back to no selection. */
  lemma PressTwiceFromNothing(c: Contact)
    ensures Toggled(null, c) == c && Toggled(Toggled(null, c), c) == null
  {
  }

  /** `words.map((word) => word[0]).join("")`: `word[0]` of an empty word is `undefined`, which `join` prints as nothing. */
  function Heads(words: seq<string>): string {
    if words == [] then []
    else (if words[0] == [] then [] else [words[0][0]]) + Heads(words[1..])
  }

  /** `name.split(" ").map((word) => word[0]).join("").toUpperCase()`. */
  function ContactInitials(name: string): string {
    Text.Upper(Heads(Text.Split(name, ' ')))
  }

  /**
   * Independent reading of the initials: scanning left to right, a character is
   * kept when it is not a space and starts the name or follows a space.
   */
  function WordStarts(s: string, afterSpace: bool): (r: string)
    ensures ' ' !in r
    ensures |r| <= |s|
  {
    if s == [] then []
    else if s[0] == ' ' then WordStarts(s[1..], true)
    else (if afterSpace then [s[0]] else []) + WordStarts(s[1..], false)
  }

  lemma {:induction false} HeadsOfSplit(s: string)
    ensures Heads(Text.Split(s, ' ')) == WordStarts(s, true)
    ensures Heads(Text.Split(s, ' ')[1..]) == WordStarts(s, false)
  {
    if s != [] {
      HeadsOfSplit(s[1..]);
      var rest := Text.Split(s[1..], ' ');
      if s[0] == ' ' {
        assert Text.Split(s, ' ') == [[]] + rest;
        assert Text.Split(s, ' ')[1..] == rest;
      } else {
        assert Text.Split(s, ' ') == [[s[0]] + rest[0]] + rest[1..];
        assert Text.Split(s, ' ')[1..] == rest[1..];
      }
    }
  }

  /**
   * `contactInitials` yields, in order, the upper-cased first character of every
   * non-empty space-separated word, and nothing else.
   */
  lemma InitialsAreWordStarts(name: string)
    ensures ContactInitials(name) == Text.Upper(WordStarts(name, true))
    ensures |ContactInitials(name)| <= |name|
  {
    HeadsOfSplit(name);
  }
}
