// The chat contact list: the avatar's initials and colour, the unread
// badge, the search filter and the most-recent-first order.
module ContactList {
  import opened Common

  datatype Mode = Auto | Human | Hybrid

  datatype Contact = Contact(
    id: string,
    phoneNumber: string,
    contactName: string,
    lastMessagePreview: Option<string>,
    lastMessageAt: Option<string>,
    unreadCount: Option<int>,
    mode: Option<Mode>,
    isTyping: bool)

  // ---------------------------------------------------------------------
  // Avatar
  // ---------------------------------------------------------------------

  /** `parts.map(n => n[0]).join('')`: the first character of every part; an empty part gives nothing. */
  function FirstChars(parts: seq<string>): (r: string)
    ensures |r| <= |parts|
    decreases |parts|
  {
    if parts == [] then []
    else (if parts[0] == "" then "" else [parts[0][0]]) + FirstChars(parts[1..])
  }

  /**
   * The first character of every word of `s`, read left to right; `atStart`
   * says whether the character before `s` was a space (or there was none).
   */
  function WordInitials(s: string, atStart: bool): (r: string)
    ensures |r| <= |s|
    decreases |s|
  {
    if s == [] then []
    else if s[0] == ' ' then WordInitials(s[1..], true)
    else (if atStart then [s[0]] else []) + WordInitials(s[1..], false)
  }

  /** Splitting at spaces and taking first characters picks exactly the characters that start a word. */
  lemma {:induction false} FirstCharsOfSplit(s: string)
    ensures FirstChars(Split(s, ' ')) == WordInitials(s, true)
    ensures FirstChars(Split(s, ' ')[1..]) == WordInitials(s, false)
    decreases |s|
  {
    if s != [] {
      FirstCharsOfSplit(s[1..]);
      var rest := Split(s[1..], ' ');
      if s[0] == ' ' {
        assert Split(s, ' ') == [""] + rest;
        assert Split(s, ' ')[1..] == rest;
      } else {
        var parts := Split(s, ' ');
        assert parts == [[s[0]] + rest[0]] + rest[1..];
        assert parts[1..] == rest[1..];
        assert parts[0][0] == s[0];
      }
    }
  }

  /** `phoneNumber.slice(-2)`: the last two characters, or the whole number when it is shorter. */
  function LastTwo(phone: string): (r: string)
    ensures |r| == if |phone| < 2 then |phone| else 2
    ensures r == phone[|phone| - |r|..]
  {
    if |phone| < 2 then phone else phone[|phone| - 2..]
  }

  /**
   * The avatar text: for a named contact, the first letters of the first two
   * words, upper-cased; for an unnamed one, the end of the phone number.
   */
  function Initials(name: string, phone: string): (r: string)
    ensures |r| <= 2
    ensures name != "" ==> r == Take(Upper(WordInitials(name, true)), 2)
    ensures name != "" ==> forall i :: 0 <= i < |r| ==> !IsLowerLetter(r[i])
    ensures name != "" && name[0] != ' ' ==> |r| >= 1 && r[0] == UpperChar(name[0])
    ensures name == "" ==> r == LastTwo(phone)
  {
    if name != "" then
      FirstCharsOfSplit(name);
      Take(Upper(FirstChars(Split(name, ' '))), 2)
    else LastTwo(phone)
  }

  const COLORS: seq<string> := [
    "bg-blue-500", "bg-green-500", "bg-yellow-500", "bg-purple-500",
    "bg-pink-500", "bg-indigo-500", "bg-red-500", "bg-teal-500"]

  /** The sum of the character codes, added from the left as `reduce` does. */
  function CodeSum(s: string): (n: nat)
    decreases |s|
  {
    if s == [] then 0 else CodeSum(s[..|s| - 1]) + s[|s| - 1] as nat
  }

  /** The colour is picked by the phone number alone and always names one of the eight colours. */
  function ColourIndex(phone: string): (r: nat)
    ensures r < |COLORS|
    ensures COLORS[r] in COLORS
  {
    CodeSum(phone) % |COLORS|
  }

  // ---------------------------------------------------------------------
  // Unread badge
  // ---------------------------------------------------------------------

  /**
   * What the avatar shows for the unread count: nothing, a badge, or a bare
   * text outside any badge (what React renders for a falsy number).
   */
  datatype BadgeView = NoBadge | StrayText(text: string) | Badge(text: string)

  /** The badge text of a positive count: the count itself, up to 9, else '9+'. */
  function BadgeText(n: nat): (r: string)
    requires n > 0
    ensures n > 9 <==> r == "9+"
    ensures n <= 9 ==> |r| == 1 && r[0] == DigitChar(n)
  {
    if n > 9 then "9+" else NatToString(n)
  }

  /**
   * `{count && count > 0 && <badge/>}` as written: a count of 0 makes the
   * whole expression 0, and React renders that 0 as text.
   */
  function UnreadBadgeAsWritten(count: Option<int>): (r: BadgeView)
    ensures r.StrayText? <==> count == Some(0)
    ensures r.Badge? <==> count.Some? && count.value > 0
  {
    match count
    case None => NoBadge
    case Some(n) =>
      if n == 0 then StrayText("0")
      else if n < 0 then NoBadge
      else Badge(BadgeText(n))
  }

  /** The evident intent: a badge for a positive count, and nothing at all otherwise. */
  function UnreadBadge(count: Option<int>): (r: BadgeView)
    ensures !r.StrayText?
    ensures r.Badge? <==> count.Some? && count.value > 0
    ensures r.Badge? ==> (r.text == "9+" <==> count.value > 9)
  {
    match count
    case Some(n) => if n > 0 then Badge(BadgeText(n)) else NoBadge
    case None => NoBadge
  }

  /** The two differ only for a count of exactly 0, where the written code shows a stray "0". */
  lemma ZeroUnreadShowsStrayZero(count: Option<int>)
    ensures UnreadBadgeAsWritten(Some(0)) == StrayText("0")
    ensures UnreadBadge(Some(0)) == NoBadge
    ensures count != Some(0) ==> UnreadBadgeAsWritten(count) == UnreadBadge(count)
  {
  }

  // ---------------------------------------------------------------------
  // Row texts
  // ---------------------------------------------------------------------

  /** The name shown: the contact's name, or its phone number when it has none. */
  function DisplayName(c: Contact): (r: string)
    ensures c.contactName != "" ==> r == c.contactName
    ensures c.contactName == "" ==> r == c.phoneNumber
  {
    if c.contactName != "" then c.contactName else c.phoneNumber
  }

  /** The second line: a typing notice, else the last message, else a placeholder. */
  function PreviewLine(c: Contact): (r: string)
    ensures c.isTyping ==> r == "Digitando..."
    ensures !c.isTyping && c.lastMessagePreview.Some? && c.lastMessagePreview.value != "" ==> r == c.lastMessagePreview.value
    ensures !c.isTyping && (c.lastMessagePreview.None? || c.lastMessagePreview.value == "") ==> r == "Nenhuma mensagem"
  {
    if c.isTyping then "Digitando..."
    else match c.lastMessagePreview
      case Some(p) => if p != "" then p else "Nenhuma mensagem"
      case None => "Nenhuma mensagem"
  }

  /** The footer: the number of conversations listed, with a plural 's' unless there is exactly one. */
  function FooterText(n: nat): (r: string)
    ensures StartsWith(r, NatToString(n) + " conversa")
    ensures r[|r| - 1] == 's' <==> n != 1
  {
    NatToString(n) + " conversa" + (if n != 1 then "s" else "")
  }

  // ---------------------------------------------------------------------
  // Search
  // ---------------------------------------------------------------------

  /** A contact matches when its name or its last message contains `query` ignoring case, or its phone contains it as written. */
  predicate Matches(c: Contact, query: string)
  {
    || Includes(Lower(c.contactName), query)
    || Includes(c.phoneNumber, query)
    || (c.lastMessagePreview.Some? && Includes(Lower(c.lastMessagePreview.value), query))
  }

  /** `filteredContacts`: all of them for a blank search, else those matching the lower-cased search text. */
  function FilterContacts(contacts: seq<Contact>, search: string): (r: seq<Contact>)
    ensures Trim(search) == "" ==> r == contacts
    ensures |r| <= |contacts|
  {
    if Trim(search) == "" then contacts
    else Filter(contacts, c => Matches(c, Lower(search)))
  }

  /** What the search keeps: for a blank search every contact, else exactly the matching ones. */
  lemma FilterContactsKeeps(contacts: seq<Contact>, search: string, c: Contact)
    ensures c in FilterContacts(contacts, search) <==>
      c in contacts && (Trim(search) == "" || Matches(c, Lower(search)))
  {
    if Trim(search) != "" {
      FilterMembership(contacts, c => Matches(c, Lower(search)), c);
    }
  }

  // ---------------------------------------------------------------------
  // Order
  // ---------------------------------------------------------------------

  /** A contact has a time when `lastMessageAt` is present and not empty (an empty string is falsy). */
  predicate HasTime(c: Contact)
  {
    c.lastMessageAt.Some? && c.lastMessageAt.value != ""
  }

  /**
   * The comparator as written; `timeOf` is `new Date(s).getTime()`. When
   * neither contact has a time it answers 1 both ways round.
   */
  function CompareAsWritten(a: Contact, b: Contact, timeOf: string -> int): int
  {
    if !HasTime(a) then 1
    else if !HasTime(b) then -1
    else timeOf(b.lastMessageAt.value) - timeOf(a.lastMessageAt.value)
  }

  /** The comparator as intended: two contacts without a time are equal. */
  function Compare(a: Contact, b: Contact, timeOf: string -> int): (r: int)
    ensures HasTime(a) && !HasTime(b) ==> r < 0
    ensures !HasTime(a) && HasTime(b) ==> r > 0
    ensures HasTime(a) && HasTime(b) ==> (r < 0 <==> timeOf(a.lastMessageAt.value) > timeOf(b.lastMessageAt.value))
  {
    if !HasTime(a) && !HasTime(b) then 0
    else if !HasTime(a) then 1
    else if !HasTime(b) then -1
    else timeOf(b.lastMessageAt.value) - timeOf(a.lastMessageAt.value)
  }

  /**
   * The written comparator is not consistent: for two contacts without a
   * time each is ranked after the other, so the order among them is left to
   * the sort's implementation. The intended one is antisymmetric.
   */
  lemma CompareAsWrittenInconsistent(a: Contact, b: Contact, timeOf: string -> int)
    requires !HasTime(a) && !HasTime(b)
    ensures CompareAsWritten(a, b, timeOf) > 0 && CompareAsWritten(b, a, timeOf) > 0
    ensures Compare(a, b, timeOf) == 0 == Compare(b, a, timeOf)
  {
  }

  /** The intended comparator is antisymmetric for every pair. */
  lemma CompareAntisymmetric(a: Contact, b: Contact, timeOf: string -> int)
    ensures Compare(a, b, timeOf) == -Compare(b, a, timeOf)
    ensures Compare(a, a, timeOf) == 0
  {
  }

  /** The sort key of a contact with a time: later first. */
  function RecencyKey(c: Contact, timeOf: string -> int): int
  {
    if HasTime(c) then -timeOf(c.lastMessageAt.value) else 0
  }

  /**
   * `sortedContacts` under the intended comparator and a stable sort: the
   * contacts with a time, latest first, then those without, in the order
   * they came.
   */
  function SortContacts(contacts: seq<Contact>, timeOf: string -> int): (r: seq<Contact>)
    ensures multiset(r) == multiset(contacts)
    ensures |r| == |contacts|
  {
    var untimed := (c: Contact) => !HasTime(c);
    FilterPartition(contacts, HasTime, untimed);
    var sorted := SortByKey(Filter(contacts, HasTime), c => RecencyKey(c, timeOf));
    assert multiset(sorted + Filter(contacts, untimed)) == multiset(sorted) + multiset(Filter(contacts, untimed));
    assert |multiset(contacts)| == |contacts|;
    sorted + Filter(contacts, untimed)
  }

  /** Splitting by a test and its negation loses and duplicates nothing. */
  lemma {:induction false} FilterPartition<T>(s: seq<T>, p: T -> bool, q: T -> bool)
    requires forall x :: q(x) <==> !p(x)
    ensures multiset(Filter(s, p)) + multiset(Filter(s, q)) == multiset(s)
    decreases |s|
  {
    if s != [] {
      FilterPartition(s[1..], p, q);
      assert s == [s[0]] + s[1..];
    }
  }

  /** Every contact comes no later than the ones after it, by the intended comparator. */
  lemma SortContactsOrdered(contacts: seq<Contact>, timeOf: string -> int)
    ensures forall i, j :: 0 <= i < j < |SortContacts(contacts, timeOf)| ==>
      Compare(SortContacts(contacts, timeOf)[i], SortContacts(contacts, timeOf)[j], timeOf) <= 0
  {
    var key := c => RecencyKey(c, timeOf);
    var timed := SortByKey(Filter(contacts, HasTime), key);
    var untimed := Filter(contacts, (c: Contact) => !HasTime(c));
    var r := SortContacts(contacts, timeOf);
    assert r == timed + untimed;
    SortByKeySorted(Filter(contacts, HasTime), key);
    forall i, j | 0 <= i < j < |r|
      ensures Compare(r[i], r[j], timeOf) <= 0
    {
      if j < |timed| {
        TimedHaveTime(contacts, timed[i], timeOf);
        TimedHaveTime(contacts, timed[j], timeOf);
        assert key(timed[i]) <= key(timed[j]);
      } else if i < |timed| {
        TimedHaveTime(contacts, timed[i], timeOf);
        UntimedHaveNone(contacts, untimed[j - |timed|]);
      } else {
        UntimedHaveNone(contacts, untimed[i - |timed|]);
        UntimedHaveNone(contacts, untimed[j - |timed|]);
      }
    }
  }

  lemma TimedHaveTime(contacts: seq<Contact>, c: Contact, timeOf: string -> int)
    requires c in SortByKey(Filter(contacts, HasTime), x => RecencyKey(x, timeOf))
    ensures HasTime(c)
  {
    var s := Filter(contacts, HasTime);
    assert c in multiset(SortByKey(s, x => RecencyKey(x, timeOf)));
    assert c in multiset(s);
    FilterMembership(contacts, HasTime, c);
  }

  lemma UntimedHaveNone(contacts: seq<Contact>, c: Contact)
    requires c in Filter(contacts, x => !HasTime(x))
    ensures !HasTime(c)
  {
    FilterMembership(contacts, x => !HasTime(x), c);
  }

  /** What the list shows: the search result in the intended order. */
  function VisibleContacts(contacts: seq<Contact>, search: string, timeOf: string -> int): (r: seq<Contact>)
    ensures multiset(r) == multiset(FilterContacts(contacts, search))
    ensures Trim(search) == "" ==> multiset(r) == multiset(contacts)
  {
    SortContacts(FilterContacts(contacts, search), timeOf)
  }
}
