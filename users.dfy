/** The users operative (src/operatives/grist/users.ts): finds a member's ledger
    account in the association's Users table by Telegram handle. */
module Users {
  import opened Common

  /** A row of the Users table; an empty cell is "". */
  datatype UserRecord = UserRecord(telegram: string, stellar: string)

  /** The filter sent with `fetchData`: column name to the accepted values. */
  type Filter = map<string, seq<string>>

  /** The table service: the rows that a filter selects, or a thrown error. */
  type UsersTable = Filter -> Result<seq<UserRecord>>

  /** `formatUsername`: a handle with exactly one '@' prepended unless it already
      starts with one. */
  function FormatUsername(username: string): (r: string)
    ensures |r| == |username| + (if StartsWith(username, "@") then 0 else 1)
    ensures StartsWith(r, "@")
    ensures r[|r| - |username|..] == username
  {
    if StartsWith(username, "@") then username else "@" + username
  }

  lemma FormatUsernameIdempotent(username: string)
    ensures FormatUsername(FormatUsername(username)) == FormatUsername(username)
  {
  }

  /** A handle without its '@' is the same handle as with it. */
  lemma FormatUsernameIgnoresAt(username: string)
    requires !StartsWith(username, "@")
    ensures FormatUsername("@" + username) == FormatUsername(username)
  {
    assert ("@" + username)[..1] == "@";
  }

  function LookupFilter(username: string): (f: Filter)
    ensures f.Keys == {"Telegram"} && f["Telegram"] == [FormatUsername(username)]
  {
    map["Telegram" := [FormatUsername(username)]]
  }

  /** `getStellarByTelegram`: null when no row has the handle, else the Stellar
      cell of the first row; errors from the table are passed on unchanged. */
  function GetStellarByTelegram(username: string, users: UsersTable): (r: Result<Option<string>>)
    ensures users(LookupFilter(username)).Err? ==> r == Err(users(LookupFilter(username)).message)
    ensures users(LookupFilter(username)).Ok? ==>
      var rows := users(LookupFilter(username)).value;
      r.Ok? && (r.value.None? <==> rows == []) && (rows != [] ==> r.value == Some(rows[0].stellar))
  {
    match users(LookupFilter(username))
    case Err(message) => Err(message)
    case Ok(rows) => if |rows| == 0 then Ok(None) else Ok(Some(rows[0].stellar))
  }

  /** "test" and "@test" send the same filter and so get the same answer. */
  lemma AtPrefixIsOptional(username: string, users: UsersTable)
    requires !StartsWith(username, "@")
    ensures LookupFilter(username) == LookupFilter("@" + username)
    ensures GetStellarByTelegram(username, users) == GetStellarByTelegram("@" + username, users)
    ensures LookupFilter("test") == map["Telegram" := ["@test"]]
  {
    FormatUsernameIgnoresAt(username);
    assert "test"[..1] != "@" by { assert "test"[..1][0] == 't'; }
    assert "@test"[..1] == "@";
    assert !StartsWith("test", "@");
    assert FormatUsername("test") == "@" + "test" == "@test";
    assert LookupFilter("test") == map["Telegram" := [FormatUsername("test")]];
  }
}
