/**
 * The entries of the chat header's three-dot menu
 * (src/renderer/components/ThreeDotMenu.tsx, `useThreeDotMenu`). An entry
 * the source writes as `false` is kept as a `Hidden` slot, so the slots line
 * up with the source's array.
 */
module ThreeDotMenu {
  import opened Wrappers

  /** `C.DC_CHAT_TYPE_GROUP`. */
  const ChatTypeGroup: int := 120

  /** The fields of `Type.FullChat` the menu reads. */
  datatype FullChat = FullChat(
    id: int, chatType: int, selfInGroup: bool, isSelfTalk: bool, isDeviceChat: bool,
    canSend: bool, isMuted: bool, archived: bool)

  /** The part of the settings store the menu reads; `None` while not loaded. */
  datatype DesktopSettings = DesktopSettings(enableChatAuditLog: bool)

  datatype Entry =
    | DisappearingMessages
    | ChatAuditLog
    | Mute
    | Unmute
    | Archive
    | Unarchive
    | BlockContact
    | LeaveGroup
    | DeleteChat

  datatype Slot = Hidden | Shown(entry: Entry)

  predicate IsGroup(chat: FullChat)
  {
    chat.chatType == ChatTypeGroup
  }

  function ShownIf(condition: bool, entry: Entry): Slot
  {
    if condition then Shown(entry) else Hidden
  }

  /** `Shown(e)` occurs among the slots. */
  predicate Offers(menu: seq<Slot>, e: Entry)
  {
    Shown(e) in menu
  }

  /**
   * The menu for the selected chat: a single hidden slot when no chat (or
   * chat 0) is selected; otherwise seven slots in the order disappearing
   * messages, audit log, mute or unmute, archive or unarchive, block
   * contact, leave group, delete chat.
   */
  function Menu(selectedChat: Option<FullChat>, settings: Option<DesktopSettings>): (menu: seq<Slot>)
    ensures selectedChat.None? || selectedChat.value.id == 0 ==> menu == [Hidden]
    ensures selectedChat.Some? && selectedChat.value.id != 0 ==>
      |menu| == 7 && menu[6] == Shown(DeleteChat)
  {
    if selectedChat.None? || selectedChat.value.id == 0 then [Hidden]
    else
      var chat := selectedChat.value;
      var isGroup := IsGroup(chat);
      [ ShownIf(chat.canSend, DisappearingMessages),
        ShownIf(!(chat.isSelfTalk || chat.isDeviceChat) && settings.Some? && settings.value.enableChatAuditLog,
                ChatAuditLog),
        Shown(if !chat.isMuted then Mute else Unmute),
        Shown(if chat.archived then Unarchive else Archive),
        ShownIf(!isGroup && !(chat.isSelfTalk || chat.isDeviceChat), BlockContact),
        ShownIf(isGroup && chat.selfInGroup, LeaveGroup),
        Shown(DeleteChat) ]
  }

  /** Without a selected chat the menu offers nothing. */
  lemma NoChatNoEntries(settings: Option<DesktopSettings>, e: Entry)
    ensures !Offers(Menu(None, settings), e)
  {
  }

  /** Every entry the menu offers sits in one of its seven slots. */
  lemma OffersAt(chat: FullChat, settings: Option<DesktopSettings>, e: Entry)
    requires chat.id != 0
    ensures var menu := Menu(Some(chat), settings);
      Offers(menu, e) <==> exists i :: 0 <= i < 7 && menu[i] == Shown(e)
  {
  }

  /**
   * For a selected chat, the entries that follow its state: delete always;
   * exactly one of mute and unmute, and of archive and unarchive.
   */
  lemma MenuStateEntries(chat: FullChat, settings: Option<DesktopSettings>)
    requires chat.id != 0
    ensures var menu := Menu(Some(chat), settings);
      && Offers(menu, DeleteChat)
      && (Offers(menu, Mute) <==> !chat.isMuted)
      && (Offers(menu, Unmute) <==> chat.isMuted)
      && (Offers(menu, Archive) <==> !chat.archived)
      && (Offers(menu, Unarchive) <==> chat.archived)
  {
    OffersAt(chat, settings, Mute);
    OffersAt(chat, settings, Unmute);
    OffersAt(chat, settings, Archive);
    OffersAt(chat, settings, Unarchive);
  }

  /**
   * For a selected chat, the entries that depend on what kind of chat it
   * is: disappearing messages when one can send; the audit log when the
   * chat is neither saved messages nor the device chat and the setting is
   * on; block contact when the chat is not a group (any other chat type)
   * and is neither saved messages nor the device chat; leave group for a
   * group the user is still in. Blocking and leaving are never offered
   * together.
   */
  lemma MenuChatEntries(chat: FullChat, settings: Option<DesktopSettings>)
    requires chat.id != 0
    ensures var menu := Menu(Some(chat), settings);
      && (Offers(menu, DisappearingMessages) <==> chat.canSend)
      && (Offers(menu, ChatAuditLog) <==>
            !chat.isSelfTalk && !chat.isDeviceChat && settings == Some(DesktopSettings(true)))
      && (Offers(menu, BlockContact) <==> !IsGroup(chat) && !chat.isSelfTalk && !chat.isDeviceChat)
      && (Offers(menu, LeaveGroup) <==> IsGroup(chat) && chat.selfInGroup)
      && !(Offers(menu, BlockContact) && Offers(menu, LeaveGroup))
  {
    OffersAt(chat, settings, DisappearingMessages);
    OffersAt(chat, settings, ChatAuditLog);
    OffersAt(chat, settings, BlockContact);
    OffersAt(chat, settings, LeaveGroup);
  }

  /** No entry is offered twice. */
  lemma MenuEntriesDistinct(chat: FullChat, settings: Option<DesktopSettings>)
    requires chat.id != 0
    ensures var menu := Menu(Some(chat), settings);
      forall i, j :: 0 <= i < j < |menu| && menu[i].Shown? ==> menu[i] != menu[j]
  {
  }
}
