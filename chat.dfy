/** The direct-message page of client/src/pages/Chat.tsx: sending a message and searching
    the contact list. Its time labels are `Elapsed.FormatTime`. */
module Chat {
  import opened Wrappers
  import opened Seqs
  import opened Text

  datatype Presence = Online | Offline | Away

  datatype Contact = Contact(id: string, name: string, avatar: string, status: Presence, lastMessage: string,
                             lastMessageTime: int, unreadCount: int)

  datatype Message = Message(id: string, sender: string, content: string, timestamp: int, avatar: string, isOwn: bool)

  /** The avatar every sent message carries. */
  const OwnAvatar := "https://ui-avatars.com/api/?name=John+Doe&background=3B82F6&color=fff&size=150"

  datatype Sent = Sent(messages: seq<Message>, input: string)

  /** `handleSendMessage` (Chat.tsx:143-157): with a non-blank input and a selected contact,
      the trimmed text is appended as one's own message from "You" and the input is cleared;
      otherwise nothing changes. `id` stands for `Date.now().toString()`. */
  function SendMessage(messages: seq<Message>, input: string, selected: Option<Contact>, id: string, now: int): (r: Sent)
    ensures BlankBetween(input, 0, |input|) || selected.None? ==> r == Sent(messages, input)
    ensures !BlankBetween(input, 0, |input|) && selected.Some? ==>
              && |r.messages| == |messages| + 1
              && r.messages[..|messages|] == messages
              && r.messages[|messages|] == Message(id, "You", Trim(input), now, OwnAvatar, true)
              && r.input == ""
    ensures |r.messages| > |messages| ==>
              var m := r.messages[|messages|];
              m.content != [] && !IsSpace(m.content[0]) && !IsSpace(m.content[|m.content| - 1])
  {
    var text := Trim(input);
    if text != [] && selected.Some? then
      Sent(messages + [Message(id, "You", text, now, OwnAvatar, true)], "")
    else Sent(messages, input)
  }

  /** `filteredContacts` (Chat.tsx:131-133). */
  function FilteredContacts(contacts: seq<Contact>, query: string): (r: seq<Contact>)
    ensures |r| <= |contacts|
    ensures forall c :: c in r <==> c in contacts && Matches(c.name, query)
  {
    Filter(contacts, (c: Contact) => Matches(c.name, query))
  }

  /** The search keeps the contacts' order, and an empty search keeps them all. */
  lemma FilteredContactsOrder(a: seq<Contact>, b: seq<Contact>, query: string)
    ensures FilteredContacts(a + b, query) == FilteredContacts(a, query) + FilteredContacts(b, query)
    ensures FilteredContacts(a, "") == a
  {
    FilterConcat(a, b, (c: Contact) => Matches(c.name, query));
    forall c | c in a ensures Matches(c.name, "") {
      ContainsEmpty(Lower(c.name));
    }
    FilterKeepsAll(a, (c: Contact) => Matches(c.name, ""));
  }
}
