/**
 * The decision logic of the new-chat dialog
 * (src/renderer/components/dialogs/CreateChat/index.tsx): the member list of
 * a group or broadcast list being created (`useGroupMembers`), the items of
 * the main dialog, the selection in the add-member dialog, and the backend
 * calls that create a group or a broadcast list.
 *
 * Backend calls are recorded as `Rpc` values in the order they are issued;
 * the ids the backend hands back are parameters.
 */
module CreateChat {
  import opened Wrappers
  import opened JsStrings
  import opened JsArrays

  /** `C.DC_CONTACT_ID_SELF`. */
  const ContactIdSelf: int := 1

  /** The fields of `Type.Contact` the dialog reads. */
  datatype Contact = Contact(id: int, address: string, isVerified: bool)

  // ---------------------------------------------------------------------------
  // Removing an id from a list of ids
  // ---------------------------------------------------------------------------

  function NotEqualTo(id: int): int -> bool
  {
    (x: int) => x != id
  }

  /** `ids.filter(x => x !== id)`. */
  function Without(ids: seq<int>, id: int): (r: seq<int>)
    ensures |r| <= |ids|
  {
    Filter(ids, NotEqualTo(id))
  }

  /** Every occurrence of `id` goes; every other id stays as often as it was there. */
  lemma WithoutCount(ids: seq<int>, id: int, x: int)
    ensures multiset(Without(ids, id))[x] == if x == id then 0 else multiset(ids)[x]
    ensures x in Without(ids, id) <==> x in ids && x != id
  {
    FilterCount(ids, NotEqualTo(id), x);
    FilterMembership(ids, NotEqualTo(id), x);
  }

  /** The ids that stay keep their relative order. */
  lemma WithoutAppend(a: seq<int>, b: seq<int>, id: int)
    ensures Without(a + b, id) == Without(a, id) + Without(b, id)
  {
    FilterAppend(a, b, NotEqualTo(id));
  }

  /** Removing an id that is not there changes nothing. */
  lemma WithoutAbsent(ids: seq<int>, id: int)
    requires id !in ids
    ensures Without(ids, id) == ids
  {
    FilterKeepsAll(ids, NotEqualTo(id));
  }

  // ---------------------------------------------------------------------------
  // useGroupMembers
  // ---------------------------------------------------------------------------

  /**
   * The members after `addRemoveGroupMember(id)`: a present id is removed
   * everywhere unless it is SELF, which stays; an absent id is appended.
   */
  function ToggledMembers(members: seq<int>, id: int): (r: seq<int>)
    ensures id in members && id != ContactIdSelf ==> id !in r && |r| < |members|
    ensures id in members && id == ContactIdSelf ==> r == members
    ensures id !in members ==> r == members + [id]
    ensures forall x :: x != id ==> multiset(r)[x] == multiset(members)[x]
  {
    if id in members then
      if id == ContactIdSelf then members
      else
        WithoutCount(members, id, id);
        FilterShorter(members, NotEqualTo(id), id);
        forall x | x != id ensures multiset(Without(members, id))[x] == multiset(members)[x] {
          WithoutCount(members, id, x);
        }
        Without(members, id)
    else members + [id]
  }

  /** `useGroupMembers`: the member ids of the group or broadcast list being built. */
  class GroupMembers {
    var members: seq<int>

    constructor (initialMembers: seq<int>)
      ensures members == initialMembers
    {
      members := initialMembers;
    }

    /** SELF can never be removed; any other id is removed wherever it occurs. */
    method RemoveGroupMember(id: int)
      modifies this
      ensures members == if id == ContactIdSelf then old(members) else Without(old(members), id)
    {
      if id != ContactIdSelf {
        members := Without(members, id);
      }
    }

    /** Appends one id at the end, even if it is already there. */
    method AddGroupMember(id: int)
      modifies this
      ensures members == old(members) + [id]
    {
      members := members + [id];
    }

    /** A present id is removed (unless it is SELF); an absent one is appended. */
    method AddRemoveGroupMember(id: int)
      modifies this
      ensures members == ToggledMembers(old(members), id)
    {
      if id in members {
        RemoveGroupMember(id);
      } else {
        AddGroupMember(id);
      }
    }

    /** Appends the given ids in order, duplicates included. */
    method AddGroupMembers(ids: seq<int>)
      modifies this
      ensures members == old(members) + ids
    {
      members := members + ids;
    }
  }

  /**
   * The creating user stays a member: once SELF is in the list, removing any
   * id leaves it there (the group dialog starts with `[SELF]`).
   */
  lemma SelfStaysMember(members: seq<int>, id: int)
    requires ContactIdSelf in members
    ensures ContactIdSelf in (if id == ContactIdSelf then members else Without(members, id))
  {
    WithoutCount(members, id, ContactIdSelf);
  }

  /**
   * The `onOk` callback the group and broadcast dialogs hand to the
   * add-member dialog: `addGroupMember` for each chosen id in turn, which
   * amounts to appending them all in order.
   */
  method AddChosenMembers(group: GroupMembers, chosen: seq<int>)
    modifies group
    ensures group.members == old(group.members) + chosen
  {
    for i := 0 to |chosen|
      invariant group.members == old(group.members) + chosen[..i]
    {
      assert chosen[..i + 1] == chosen[..i] + [chosen[i]];
      group.AddGroupMember(chosen[i]);
    }
    assert chosen[..|chosen|] == chosen;
  }

  /**
   * Toggling an absent id twice gives the list back, except for SELF: once
   * added it can no longer be toggled out.
   */
  lemma AddRemoveTwiceRestores(members: seq<int>, id: int)
    requires id !in members
    ensures id != ContactIdSelf ==> ToggledMembers(ToggledMembers(members, id), id) == members
    ensures id == ContactIdSelf ==> ToggledMembers(ToggledMembers(members, id), id) == members + [id]
  {
    var added := members + [id];
    assert added[|members|] == id;
    if id != ContactIdSelf {
      WithoutAppend(members, [id], id);
      WithoutAbsent(members, id);
      assert Without([id], id) == [];
    }
  }

  /** The same round trip on the dialog's state: two toggles of an absent id other than SELF change nothing. */
  method ToggleTwice(group: GroupMembers, id: int)
    requires id !in group.members && id != ContactIdSelf
    modifies group
    ensures group.members == old(group.members)
  {
    group.AddRemoveGroupMember(id);
    group.AddRemoveGroupMember(id);
    AddRemoveTwiceRestores(old(group.members), id);
  }

  // ---------------------------------------------------------------------------
  // The main dialog's list
  // ---------------------------------------------------------------------------

  /** An entry of the main dialog's list: the extra items and the contacts. */
  datatype ChatListItem = AddContactQrScan | AddGroup | AddBroadcastList | ContactItem(contact: Contact) | AddContact

  function ContactItems(contacts: seq<Contact>): (items: seq<ChatListItem>)
    ensures |items| == |contacts|
    ensures forall i :: 0 <= i < |items| ==> items[i] == ContactItem(contacts[i])
  {
    seq(|contacts|, i requires 0 <= i < |contacts| => ContactItem(contacts[i]))
  }

  /** The contacts among the items, in order. */
  function ContactsIn(items: seq<ChatListItem>): seq<Contact>
    decreases |items|
  {
    if items == [] then []
    else (if items[0].ContactItem? then [items[0].contact] else []) + ContactsIn(items[1..])
  }

  lemma {:induction false} ContactsInAppend(a: seq<ChatListItem>, b: seq<ChatListItem>)
    ensures ContactsIn(a + b) == ContactsIn(a) + ContactsIn(b)
    decreases |a|
  {
    if a == [] {
      assert a + b == b;
    } else {
      assert (a + b)[0] == a[0];
      assert (a + b)[1..] == a[1..] + b;
      ContactsInAppend(a[1..], b);
    }
  }

  lemma {:induction false} ContactsInContactItems(contacts: seq<Contact>)
    ensures ContactsIn(ContactItems(contacts)) == contacts
    decreases |contacts|
  {
    if contacts != [] {
      assert ContactItems(contacts)[1..] == ContactItems(contacts[1..]);
      ContactsInContactItems(contacts[1..]);
    }
  }

  /**
   * `needToRenderAddContact`: the "add contact" entry is offered for a
   * non-empty query unless the only hit already has that address (compared
   * after trimming the query, ignoring case).
   */
  predicate NeedToRenderAddContact(queryStr: string, contacts: seq<Contact>)
  {
    !(queryStr == "" || (|contacts| == 1 && ToLower(contacts[0].address) == ToLower(Trim(queryStr))))
  }

  /** The entries before the contacts: only offered while the query is empty. */
  function LeadingItems(queryStr: string, enableBroadcastLists: Option<bool>): seq<ChatListItem>
  {
    if queryStr == "" then
      [AddContactQrScan, AddGroup] + (if enableBroadcastLists == Some(true) then [AddBroadcastList] else [])
    else []
  }

  /** The entry after the contacts. */
  function TrailingItems(queryStr: string, contacts: seq<Contact>): seq<ChatListItem>
  {
    if NeedToRenderAddContact(queryStr, contacts) then [AddContact] else []
  }

  /**
   * `contactsAndExtraItems`. `enableBroadcastLists` is `None` while the
   * settings are not loaded.
   */
  function ContactsAndExtraItems(queryStr: string, contacts: seq<Contact>, enableBroadcastLists: Option<bool>)
    : seq<ChatListItem>
  {
    LeadingItems(queryStr, enableBroadcastLists) + ContactItems(contacts) + TrailingItems(queryStr, contacts)
  }

  /** The contacts appear in the list exactly once each, in their order, whatever the query. */
  lemma ContactsAndExtraItemsContacts(queryStr: string, contacts: seq<Contact>, enableBroadcastLists: Option<bool>)
    ensures ContactsIn(ContactsAndExtraItems(queryStr, contacts, enableBroadcastLists)) == contacts
  {
    var head := LeadingItems(queryStr, enableBroadcastLists);
    var body := ContactItems(contacts);
    var tail := TrailingItems(queryStr, contacts);
    ContactsInAppend(head, body);
    ContactsInAppend(head + body, tail);
    ContactsInContactItems(contacts);
    assert ContactsIn(head) == [] by {
      if head != [] {
        assert ContactsIn(head) == ContactsIn(head[1..]);
        assert ContactsIn(head[1..]) == ContactsIn(head[2..]);
        assert |head| == 3 ==> ContactsIn(head[2..]) == ContactsIn(head[3..]);
      }
    }
    assert ContactsIn(tail) == [] by {
      if tail != [] { assert ContactsIn(tail) == ContactsIn(tail[1..]); }
    }
  }

  /** The contact entries hold none of the extra items. */
  lemma ContactItemsHoldNoExtras(contacts: seq<Contact>)
    ensures var body := ContactItems(contacts);
      AddContact !in body && AddGroup !in body && AddContactQrScan !in body && AddBroadcastList !in body
  {
    var body := ContactItems(contacts);
    forall i | 0 <= i < |body| ensures body[i].ContactItem? {
    }
  }

  /**
   * With an empty query the list starts with QR scan and new group, then
   * new broadcast list exactly when that setting is on, then the contacts;
   * "add contact" is never offered.
   */
  lemma ExtrasWithoutQuery(contacts: seq<Contact>, enableBroadcastLists: Option<bool>)
    ensures var items := ContactsAndExtraItems("", contacts, enableBroadcastLists);
      var k := if enableBroadcastLists == Some(true) then 3 else 2;
      && |items| == k + |contacts|
      && items[..2] == [AddContactQrScan, AddGroup]
      && (enableBroadcastLists == Some(true) ==> items[2] == AddBroadcastList)
      && items[k..] == ContactItems(contacts)
      && AddContact !in items
      && (AddBroadcastList in items <==> enableBroadcastLists == Some(true))
  {
    var items := ContactsAndExtraItems("", contacts, enableBroadcastLists);
    var head := LeadingItems("", enableBroadcastLists);
    ContactItemsHoldNoExtras(contacts);
    assert items == head + ContactItems(contacts);
    assert items[..2] == head[..2];
    assert items[|head|..] == ContactItems(contacts);
  }

  /**
   * With a non-empty query the list holds none of the leading extras, and
   * "add contact" is offered, as the last entry, unless the single hit
   * already has the typed address.
   */
  lemma ExtrasWithQuery(queryStr: string, contacts: seq<Contact>, enableBroadcastLists: Option<bool>)
    requires queryStr != ""
    ensures var items := ContactsAndExtraItems(queryStr, contacts, enableBroadcastLists);
      && AddContactQrScan !in items && AddGroup !in items && AddBroadcastList !in items
      && (AddContact in items <==> !(|contacts| == 1 && ToLower(contacts[0].address) == ToLower(Trim(queryStr))))
      && (AddContact in items ==> items[|items| - 1] == AddContact)
      && |items| == |contacts| + (if NeedToRenderAddContact(queryStr, contacts) then 1 else 0)
      && items[..|contacts|] == ContactItems(contacts)
  {
    var items := ContactsAndExtraItems(queryStr, contacts, enableBroadcastLists);
    ContactItemsHoldNoExtras(contacts);
    assert items == ContactItems(contacts) + TrailingItems(queryStr, contacts);
    assert items[..|contacts|] == ContactItems(contacts);
  }

  // ---------------------------------------------------------------------------
  // The add-member dialog
  // ---------------------------------------------------------------------------

  function Ids(contacts: seq<Contact>): (ids: seq<int>)
    ensures |ids| == |contacts|
    ensures forall i :: 0 <= i < |ids| ==> ids[i] == contacts[i].id
  {
    seq(|contacts|, i requires 0 <= i < |contacts| => contacts[i].id)
  }

  function HasOtherId(id: int): Contact -> bool
  {
    (c: Contact) => c.id != id
  }

  function IsMemberOf(groupMembers: seq<int>): Contact -> bool
  {
    (c: Contact) => c.id in groupMembers
  }

  predicate SelectedId(selection: seq<Contact>, id: int)
  {
    exists i :: 0 <= i < |selection| && selection[i].id == id
  }

  /** `contactIdsInGroup`: the ids of the search results that are already members. */
  function ContactIdsInGroup(searchContacts: seq<Contact>, groupMembers: seq<int>): seq<int>
  {
    Ids(Filter(searchContacts, IsMemberOf(groupMembers)))
  }

  /** A row's checkbox is ticked when it is selected or already in the group. */
  predicate RowChecked(selection: seq<Contact>, contactIdsInGroup: seq<int>, contact: Contact)
  {
    SelectedId(selection, contact.id) || contact.id in contactIdsInGroup
  }

  /** A row cannot be clicked when it is already in the group or is SELF. */
  predicate RowDisabled(contactIdsInGroup: seq<int>, contact: Contact)
  {
    contact.id in contactIdsInGroup || contact.id == ContactIdSelf
  }

  /** For a search result, "in the group" in the row predicates means exactly membership. */
  lemma RowStates(searchContacts: seq<Contact>, groupMembers: seq<int>, selection: seq<Contact>, contact: Contact)
    requires contact in searchContacts
    ensures var inGroup := ContactIdsInGroup(searchContacts, groupMembers);
      && (RowChecked(selection, inGroup, contact) <==> SelectedId(selection, contact.id) || contact.id in groupMembers)
      && (RowDisabled(inGroup, contact) <==> contact.id in groupMembers || contact.id == ContactIdSelf)
  {
    var kept := Filter(searchContacts, IsMemberOf(groupMembers));
    FilterMembership(searchContacts, IsMemberOf(groupMembers), contact);
    if contact.id in Ids(kept) {
      var i :| 0 <= i < |kept| && Ids(kept)[i] == contact.id;
      assert kept[i] in kept;
    }
    if contact.id in groupMembers {
      var i :| 0 <= i < |kept| && kept[i] == contact;
      assert Ids(kept)[i] == contact.id;
    }
  }

  datatype AddMemberRow = ContactRow(contact: Contact) | AddContactRow

  /**
   * The rows of the add-member list: one per search result, in order, and a
   * final "add contact" row exactly when the query is non-empty and nothing
   * was found (`itemCount`).
   */
  function AddMemberRows(queryStr: string, searchContacts: seq<Contact>): (rows: seq<AddMemberRow>)
    ensures |rows| == |searchContacts| + (if queryStr != "" && |searchContacts| == 0 then 1 else 0)
    ensures forall i :: 0 <= i < |searchContacts| ==> rows[i] == ContactRow(searchContacts[i])
    ensures AddContactRow in rows <==> queryStr != "" && searchContacts == []
  {
    var needToRenderAddContact := queryStr != "" && |searchContacts| == 0;
    var itemCount := |searchContacts| + (if needToRenderAddContact then 1 else 0);
    var rows := seq(itemCount, i requires 0 <= i < itemCount =>
      if i < |searchContacts| then ContactRow(searchContacts[i]) else AddContactRow);
    assert needToRenderAddContact ==> rows[0] == AddContactRow;
    rows
  }

  /** `addMember` refuses the contact and opens the verification warning instead. */
  predicate AddRefused(contact: Contact, isVerificationRequired: bool)
  {
    isVerificationRequired && !contact.isVerified
  }

  /**
   * The selection after `toggleMember`: a selected id is removed, every
   * entry of it; an unselected contact is appended unless `addMember`
   * refuses it.
   */
  function Toggled(selected: seq<Contact>, contact: Contact, isVerificationRequired: bool): (r: seq<Contact>)
    ensures SelectedId(selected, contact.id) ==> !SelectedId(r, contact.id) && |r| < |selected|
    ensures !SelectedId(selected, contact.id) && AddRefused(contact, isVerificationRequired) ==> r == selected
    ensures !SelectedId(selected, contact.id) && !AddRefused(contact, isVerificationRequired) ==>
      r == selected + [contact] && SelectedId(r, contact.id)
    ensures forall c: Contact :: c.id != contact.id ==> (c in r <==> c in selected)
  {
    if SelectedId(selected, contact.id) then
      var kept := Filter(selected, HasOtherId(contact.id));
      var i :| 0 <= i < |selected| && selected[i].id == contact.id;
      FilterShorter(selected, HasOtherId(contact.id), selected[i]);
      forall i | 0 <= i < |kept| ensures kept[i].id != contact.id {
        assert kept[i] in kept;
      }
      forall c: Contact | c.id != contact.id ensures c in kept <==> c in selected {
        FilterMembership(selected, HasOtherId(contact.id), c);
      }
      kept
    else if AddRefused(contact, isVerificationRequired) then selected
    else
      assert (selected + [contact])[|selected|] == contact;
      selected + [contact]
  }

  /** Toggling a contact that is not selected twice gives the selection back. */
  lemma ToggleTwiceRestores(selected: seq<Contact>, contact: Contact, isVerificationRequired: bool)
    requires !SelectedId(selected, contact.id)
    ensures Toggled(Toggled(selected, contact, isVerificationRequired), contact, isVerificationRequired) == selected
  {
    if !AddRefused(contact, isVerificationRequired) {
      var added := selected + [contact];
      FilterAppend(selected, [contact], HasOtherId(contact.id));
      assert forall i :: 0 <= i < |selected| ==> HasOtherId(contact.id)(selected[i]);
      FilterKeepsAll(selected, HasOtherId(contact.id));
    }
  }

  /**
   * The add-member dialog's own state: the contacts chosen so far
   * (`contactIdsToAdd`), the contacts created from the dialog that a cancel
   * deletes again, and how often the "verified contacts required" dialog
   * was opened.
   */
  class AddMemberSelection {
    const isVerificationRequired: bool
    var contactIdsToAdd: seq<Contact>
    var contactsToDeleteOnCancel: seq<int>
    var verificationDialogsOpened: nat

    constructor (isVerificationRequired: bool)
      ensures this.isVerificationRequired == isVerificationRequired
      ensures contactIdsToAdd == [] && contactsToDeleteOnCancel == [] && verificationDialogsOpened == 0
    {
      this.isVerificationRequired := isVerificationRequired;
      contactIdsToAdd := [];
      contactsToDeleteOnCancel := [];
      verificationDialogsOpened := 0;
    }

    /** `addMember`: an unverified contact is refused when verification is required; otherwise it is appended. */
    method AddMember(contact: Contact)
      modifies this
      ensures contactsToDeleteOnCancel == old(contactsToDeleteOnCancel)
      ensures isVerificationRequired && !contact.isVerified ==>
        contactIdsToAdd == old(contactIdsToAdd) && verificationDialogsOpened == old(verificationDialogsOpened) + 1
      ensures !(isVerificationRequired && !contact.isVerified) ==>
        contactIdsToAdd == old(contactIdsToAdd) + [contact] && verificationDialogsOpened == old(verificationDialogsOpened)
    {
      if isVerificationRequired && !contact.isVerified {
        verificationDialogsOpened := verificationDialogsOpened + 1;
        return;
      }
      contactIdsToAdd := contactIdsToAdd + [contact];
    }

    /** `removeMember`: every selected entry with the contact's id goes. */
    method RemoveMember(contact: Contact)
      modifies this
      ensures contactIdsToAdd == Filter(old(contactIdsToAdd), HasOtherId(contact.id))
      ensures contactsToDeleteOnCancel == old(contactsToDeleteOnCancel)
      ensures verificationDialogsOpened == old(verificationDialogsOpened)
    {
      contactIdsToAdd := Filter(contactIdsToAdd, HasOtherId(contact.id));
    }

    /** `toggleMember`: remove when the id is selected, otherwise `addMember`. */
    method ToggleMember(contact: Contact)
      modifies this
      ensures contactsToDeleteOnCancel == old(contactsToDeleteOnCancel)
      ensures contactIdsToAdd == Toggled(old(contactIdsToAdd), contact, isVerificationRequired)
      ensures verificationDialogsOpened == old(verificationDialogsOpened) +
        (if !SelectedId(old(contactIdsToAdd), contact.id) && AddRefused(contact, isVerificationRequired) then 1 else 0)
    {
      if !SelectedId(contactIdsToAdd, contact.id) {
        AddMember(contact);
      } else {
        RemoveMember(contact);
        assert forall i :: 0 <= i < |contactIdsToAdd| ==> contactIdsToAdd[i] in contactIdsToAdd;
      }
    }

    /**
     * `createNewContact` once the backend has created `created` from the
     * query: nothing happens for a query that is not an e-mail address;
     * otherwise the new contact is toggled and remembered for deletion on
     * cancel, and the query is cleared.
     */
    method CreateNewContact(queryStrIsValidEmail: bool, created: Contact) returns (queryCleared: bool)
      modifies this
      ensures queryCleared == queryStrIsValidEmail
      ensures !queryStrIsValidEmail ==>
        && contactIdsToAdd == old(contactIdsToAdd) && contactsToDeleteOnCancel == old(contactsToDeleteOnCancel)
        && verificationDialogsOpened == old(verificationDialogsOpened)
      ensures queryStrIsValidEmail ==>
        && contactIdsToAdd == Toggled(old(contactIdsToAdd), created, isVerificationRequired)
        && contactsToDeleteOnCancel == old(contactsToDeleteOnCancel) + [created.id]
        && verificationDialogsOpened == old(verificationDialogsOpened) +
             (if !SelectedId(old(contactIdsToAdd), created.id) && AddRefused(created, isVerificationRequired) then 1 else 0)
    {
      if !queryStrIsValidEmail {
        return false;
      }
      ToggleMember(created);
      contactsToDeleteOnCancel := contactsToDeleteOnCancel + [created.id];
      queryCleared := true;
    }

    /** `_onOk`: nothing on an empty selection, otherwise the selected ids in selection order. */
    function OnOk(): (passed: Option<seq<int>>)
      reads this
      ensures passed.None? <==> contactIdsToAdd == []
      ensures passed.Some? ==>
        && |passed.value| == |contactIdsToAdd|
        && forall i :: 0 <= i < |contactIdsToAdd| ==> passed.value[i] == contactIdsToAdd[i].id
    {
      if |contactIdsToAdd| == 0 then None else Some(Ids(contactIdsToAdd))
    }

    /** `_onCancel`: delete the contacts created from the dialog, one after another, in creation order. */
    method OnCancel() returns (calls: seq<Rpc>)
      ensures |calls| == |contactsToDeleteOnCancel|
      ensures forall i :: 0 <= i < |calls| ==> calls[i] == DeleteContact(contactsToDeleteOnCancel[i])
    {
      calls := [];
      for i := 0 to |contactsToDeleteOnCancel|
        invariant |calls| == i
        invariant forall k :: 0 <= k < i ==> calls[k] == DeleteContact(contactsToDeleteOnCancel[k])
      {
        calls := calls + [DeleteContact(contactsToDeleteOnCancel[i])];
      }
    }
  }

  // ---------------------------------------------------------------------------
  // Creating the group or broadcast list
  // ---------------------------------------------------------------------------

  /** The backend calls the dialogs make, in the order made. */
  datatype Rpc =
    | CreateGroupChat(name: string, protect: bool)
    | SetChatProfileImage(chatId: int, image: string)
    | AddContactToChat(chatId: int, contactId: int)
    | CreateBroadcastList
    | SetChatName(chatId: int, name: string)
    | DeleteContact(contactId: int)

  /** One `addContactToChat` per id, in order. */
  function AddCalls(chatId: int, ids: seq<int>): (calls: seq<Rpc>)
    ensures |calls| == |ids|
    ensures forall i :: 0 <= i < |ids| ==> calls[i] == AddContactToChat(chatId, ids[i])
  {
    seq(|ids|, i requires 0 <= i < |ids| => AddContactToChat(chatId, ids[i]))
  }

  /**
   * The member loop of `createGroup` and `createBroadcastList`: add every
   * member except SELF to the chat, in list order.
   */
  method AddMembersToChat(chatId: int, members: seq<int>) returns (calls: seq<Rpc>)
    ensures calls == AddCalls(chatId, Without(members, ContactIdSelf))
  {
    calls := [];
    for i := 0 to |members|
      invariant calls == AddCalls(chatId, Without(members[..i], ContactIdSelf))
    {
      assert members[..i + 1] == members[..i] + [members[i]];
      WithoutAppend(members[..i], [members[i]], ContactIdSelf);
      if members[i] != ContactIdSelf {
        calls := calls + [AddContactToChat(chatId, members[i])];
      } else {
        assert Without([members[i]], ContactIdSelf) == [];
      }
    }
    assert members[..|members|] == members;
  }

  /** SELF is never added; every other member is added as often as listed. */
  lemma AddedMembers(chatId: int, members: seq<int>, contactId: int)
    ensures AddContactToChat(chatId, ContactIdSelf) !in AddCalls(chatId, Without(members, ContactIdSelf))
    ensures AddContactToChat(chatId, contactId) in AddCalls(chatId, Without(members, ContactIdSelf))
      <==> contactId in members && contactId != ContactIdSelf
  {
    var kept := Without(members, ContactIdSelf);
    WithoutCount(members, ContactIdSelf, contactId);
    WithoutCount(members, ContactIdSelf, ContactIdSelf);
    if AddContactToChat(chatId, contactId) in AddCalls(chatId, kept) {
      var i :| 0 <= i < |kept| && AddCalls(chatId, kept)[i] == AddContactToChat(chatId, contactId);
      assert kept[i] in kept;
    }
    if contactId in kept {
      var i :| 0 <= i < |kept| && kept[i] == contactId;
      assert AddCalls(chatId, kept)[i] == AddContactToChat(chatId, contactId);
    }
    forall i | 0 <= i < |kept| ensures AddCalls(chatId, kept)[i] != AddContactToChat(chatId, ContactIdSelf) {
      assert kept[i] in kept;
    }
  }

  /** What a dialog does once its calls are made: close itself and select a chat. */
  datatype Outcome = Outcome(calls: seq<Rpc>, closed: bool, selectedChat: Option<int>)

  /**
   * `finishCreateGroup`, given the verification answer and the new chat's id
   * from the backend: nothing for an empty name; otherwise create the chat,
   * set a non-empty image, add the members other than SELF, then close the
   * dialog and select the chat.
   */
  method FinishCreateGroup(groupName: string, groupImage: Option<string>, groupMembers: seq<int>,
                           allVerified: bool, chatId: int)
    returns (outcome: Outcome)
    ensures groupName == "" ==> outcome == Outcome([], false, None)
    ensures groupName != "" ==>
      && outcome.closed && outcome.selectedChat == Some(chatId)
      && outcome.calls ==
           [CreateGroupChat(groupName, allVerified)]
           + (if groupImage.Some? && groupImage.value != "" then [SetChatProfileImage(chatId, groupImage.value)] else [])
           + AddCalls(chatId, Without(groupMembers, ContactIdSelf))
  {
    if groupName == "" {
      return Outcome([], false, None);
    }
    var calls := [CreateGroupChat(groupName, allVerified)];
    if groupImage.Some? && groupImage.value != "" {
      calls := calls + [SetChatProfileImage(chatId, groupImage.value)];
    }
    var adds := AddMembersToChat(chatId, groupMembers);
    outcome := Outcome(calls + adds, true, Some(chatId));
  }

  /** The group dialog's create button: an empty name only shows the error. */
  method CreateGroupButton(groupName: string, groupImage: Option<string>, groupMembers: seq<int>,
                           allVerified: bool, chatId: int)
    returns (errorMissingName: bool, outcome: Outcome)
    ensures errorMissingName <==> groupName == ""
    ensures errorMissingName ==> outcome == Outcome([], false, None)
    ensures !errorMissingName ==>
      && outcome.closed && outcome.selectedChat == Some(chatId)
      && outcome.calls ==
           [CreateGroupChat(groupName, allVerified)]
           + (if groupImage.Some? && groupImage.value != "" then [SetChatProfileImage(chatId, groupImage.value)] else [])
           + AddCalls(chatId, Without(groupMembers, ContactIdSelf))
  {
    if groupName == "" {
      return true, Outcome([], false, None);
    }
    errorMissingName := false;
    outcome := FinishCreateGroup(groupName, groupImage, groupMembers, allVerified, chatId);
  }

  /**
   * The function `useCreateBroadcast` returns, given the new chat's id: create
   * the list, add the recipients other than SELF, set the name (whatever it
   * is), then close the dialog and select the chat.
   */
  method FinishCreateBroadcast(recipients: seq<int>, name: string, chatId: int) returns (outcome: Outcome)
    ensures outcome.closed && outcome.selectedChat == Some(chatId)
    ensures outcome.calls ==
      [CreateBroadcastList] + AddCalls(chatId, Without(recipients, ContactIdSelf)) + [SetChatName(chatId, name)]
  {
    var adds := AddMembersToChat(chatId, recipients);
    outcome := Outcome([CreateBroadcastList] + adds + [SetChatName(chatId, name)], true, Some(chatId));
  }

  /** The broadcast dialog's create button: an empty name only shows the error. */
  method CreateBroadcastButton(recipients: seq<int>, name: string, chatId: int)
    returns (errorMissingName: bool, outcome: Outcome)
    ensures errorMissingName <==> name == ""
    ensures errorMissingName ==> outcome == Outcome([], false, None)
    ensures !errorMissingName ==>
      && outcome.closed && outcome.selectedChat == Some(chatId)
      && outcome.calls ==
           [CreateBroadcastList] + AddCalls(chatId, Without(recipients, ContactIdSelf)) + [SetChatName(chatId, name)]
  {
    if name == "" {
      return true, Outcome([], false, None);
    }
    errorMissingName := false;
    outcome := FinishCreateBroadcast(recipients, name, chatId);
  }
}
