/** The management operative (src/operatives/telegram/management.ts): the
    handles of the members of the management chat. */
module TelegramManagement {
  import opened Common

  /** The management chat's id. */
  const ManagementChatId: int := -1001798357244

  /** A chat member as the members directory returns it. */
  datatype TelegramUser = TelegramUser(id: int, username: Option<string>)

  /** `getChatMembers(chatId)` of the members directory, or a thrown error. */
  type ChatDirectory = int -> Result<seq<TelegramUser>>

  /** `member.username ?? "id:" + member.id`: only an absent username falls back. */
  function MemberName(member: TelegramUser): string {
    if member.username.Some? then member.username.value else "id:" + IntToString(member.id)
  }

  /** `getMembers`: one name per member of the management chat, in order. */
  function GetMembers(directory: ChatDirectory): (r: Result<seq<string>>)
    ensures directory(ManagementChatId).Err? ==> r == Err(directory(ManagementChatId).message)
    ensures directory(ManagementChatId).Ok? ==>
      var members := directory(ManagementChatId).value;
      && r.Ok? && |r.value| == |members|
      && forall i :: 0 <= i < |members| ==> r.value[i] == MemberName(members[i])
  {
    match directory(ManagementChatId)
    case Err(message) => Err(message)
    case Ok(members) => Ok(seq(|members|, i requires 0 <= i < |members| => MemberName(members[i])))
  }

  /** Reads a fallback entry back into the member id it was written from. */
  function ParseIdEntry(name: string): Option<int> {
    if StartsWith(name, "id:") then ParseInt(name[3..]) else None
  }

  /** A member without a username can be told apart by its id: the entry reads
      back to that id. */
  lemma {:induction false} IdEntryRoundTrip(member: TelegramUser)
    requires member.username.None?
    ensures ParseIdEntry(MemberName(member)) == Some(member.id)
  {
    var name := MemberName(member);
    assert name[3..] == IntToString(member.id);
    IntToStringRoundTrip(member.id);
  }

  /** Only the management chat is asked: two directories that agree on it give
      the same member list. */
  lemma OnlyManagementChatIsQueried(d1: ChatDirectory, d2: ChatDirectory)
    requires d1(ManagementChatId) == d2(ManagementChatId)
    ensures GetMembers(d1) == GetMembers(d2)
  {
  }

  /** The directory's example: two named members and one without a username. */
  lemma ExampleMembers(directory: ChatDirectory)
    requires directory(ManagementChatId) == Ok([TelegramUser(1, Some("user1")), TelegramUser(2, Some("user2")),
                                                TelegramUser(3, None)])
    ensures GetMembers(directory) == Ok(["user1", "user2", "id:3"])
  {
    assert DigitChar(3) == '3';
    assert IntToString(3) == "3";
    var r := GetMembers(directory).value;
    assert r[0] == "user1" && r[1] == "user2" && r[2] == "id:3";
    assert r == ["user1", "user2", "id:3"];
  }
}
