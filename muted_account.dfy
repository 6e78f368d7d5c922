/**
 * `MutedAccount`: an account as the mutes endpoint returns it, which is an ordinary account plus
 * the time its mute expires, and its projection back to an `Account`.
 */
module MutedAccounts {
  import opened Wrappers
  import opened JsonSerializer

  /** Kotlin's `Long`: a 64-bit signed integer. */
  type Int64 = x: int | -0x8000_0000_0000_0000 <= x < 0x8000_0000_0000_0000

  /** A profile field of an account; its own fields are not part of this model beyond these. */
  datatype Field = Field(name: string, value: string)

  /** A custom emoji of an account; its own fields are not part of this model beyond these. */
  datatype CustomEmoji = CustomEmoji(shortcode: string, url: string)

  /** The fields an `Account` shares with a `MutedAccount`, in the order both declare them. */
  datatype Account = Account(
    id: string, username: string, acct: string, url: string, displayName: string, note: string,
    avatar: string, avatarStatic: string, header: string, headerStatic: string,
    isLocked: bool, fields: seq<Field>, emojis: seq<CustomEmoji>, isBot: bool, isGroup: bool,
    isDiscoverable: Option<bool>, isNotIndexed: Option<bool>, moved: Option<Account>,
    isSuspended: Option<bool>, isLimited: Option<bool>,
    createdAt: PrecisionDateTime, lastStatusAt: PrecisionDateTime,
    statusesCount: Int64, followersCount: Int64, followingCount: Int64)

  datatype MutedAccount = MutedAccount(
    id: string, username: string, acct: string, url: string, displayName: string, note: string,
    avatar: string, avatarStatic: string, header: string, headerStatic: string,
    isLocked: bool, fields: seq<Field>, emojis: seq<CustomEmoji>, isBot: bool, isGroup: bool,
    isDiscoverable: Option<bool>, isNotIndexed: Option<bool>, moved: Option<Account>,
    isSuspended: Option<bool>, isLimited: Option<bool>,
    createdAt: PrecisionDateTime, lastStatusAt: PrecisionDateTime,
    statusesCount: Int64, followersCount: Int64, followingCount: Int64,
    muteExpiresAt: PrecisionDateTime)
  {
    /**
     * `toAccount`: the same account without its mute expiry. Every other field survives: the
     * muted account is rebuilt from the projection and the expiry alone.
     */
    function ToAccount(): (a: Account)
      ensures Muted(a, muteExpiresAt) == this
    {
      Account(id, username, acct, url, displayName, note, avatar, avatarStatic, header, headerStatic,
              isLocked, fields, emojis, isBot, isGroup, isDiscoverable, isNotIndexed, moved,
              isSuspended, isLimited, createdAt, lastStatusAt, statusesCount, followersCount, followingCount)
    }
  }

  /** An account muted until `expiresAt`: the reference the projection is checked against. */
  function Muted(a: Account, expiresAt: PrecisionDateTime): (m: MutedAccount)
    ensures m.muteExpiresAt == expiresAt
  {
    MutedAccount(a.id, a.username, a.acct, a.url, a.displayName, a.note, a.avatar, a.avatarStatic,
                 a.header, a.headerStatic, a.isLocked, a.fields, a.emojis, a.isBot, a.isGroup,
                 a.isDiscoverable, a.isNotIndexed, a.moved, a.isSuspended, a.isLimited,
                 a.createdAt, a.lastStatusAt, a.statusesCount, a.followersCount, a.followingCount,
                 expiresAt)
  }

  /** What a muted account decodes to when the server sends none of its fields. */
  const DEFAULT_MUTED_ACCOUNT: MutedAccount :=
    MutedAccount("0", "", "", "", "", "", "", "", "", "", false, [], [], false, false,
                 None, None, None, None, None, Unavailable, Unavailable, 0, 0, 0, Unavailable)

  /** Projecting a muted account gives exactly the account it was made from, whatever the expiry. */
  lemma ProjectionForgetsOnlyTheExpiry(a: Account, expiresAt: PrecisionDateTime)
    ensures Muted(a, expiresAt).ToAccount() == a
  {
  }

  /** Two muted accounts that differ only in when the mute expires project to the same account. */
  lemma ExpiryIsNotCarried(m: MutedAccount, expiresAt: PrecisionDateTime)
    ensures m.(muteExpiresAt := expiresAt).ToAccount() == m.ToAccount()
  {
  }

  /**
   * The defaults: id "0", empty strings and lists, false flags, absent optional flags and moved
   * account, zero counts, and unavailable dates, the mute expiry included; the projection keeps them.
   */
  lemma Defaults()
    ensures var m := DEFAULT_MUTED_ACCOUNT;
      && m.id == "0"
      && m.username == m.acct == m.url == m.displayName == m.note == ""
      && m.avatar == m.avatarStatic == m.header == m.headerStatic == ""
      && !m.isLocked && !m.isBot && !m.isGroup && m.fields == [] && m.emojis == []
      && m.isDiscoverable.None? && m.isNotIndexed.None? && m.moved.None?
      && m.isSuspended.None? && m.isLimited.None?
      && m.createdAt.Unavailable? && m.lastStatusAt.Unavailable? && m.muteExpiresAt.Unavailable?
      && m.statusesCount == m.followersCount == m.followingCount == 0
      && m.ToAccount().id == "0" && m.ToAccount().createdAt.Unavailable?
  {
  }
}
