/** `helper.py`: the Discord uid of a character, and unloading a cog without raising. */
module Helper {
  import opened Wrappers

  /** The relations that `character.character_ownership.user.discord.uid` walks through;
      a missing one is `None` (Django raises an `AttributeError` subclass for it). */
  datatype DiscordAccount = DiscordAccount(uid: nat)
  datatype AuthUser = AuthUser(discord: Option<DiscordAccount>)
  datatype Ownership = Ownership(user: Option<AuthUser>)
  datatype Character = Character(ownership: Option<Ownership>)

  /** Whether every link from the character to its Discord account is present. */
  predicate FullyLinked(c: Option<Character>)
  {
    && c.Some?
    && c.value.ownership.Some?
    && c.value.ownership.value.user.Some?
    && c.value.ownership.value.user.value.discord.Some?
  }

  /** `get_discord_id`: the uid when the whole chain is present, `None` (not an exception) otherwise. */
  function GetDiscordId(c: Option<Character>): (r: Option<nat>)
    ensures r.Some? <==> FullyLinked(c)
    ensures r.Some? ==> r.value == c.value.ownership.value.user.value.discord.value.uid
  {
    match c
    case None => None
    case Some(ch) =>
      match ch.ownership
      case None => None
      case Some(o) =>
        match o.user
        case None => None
        case Some(u) =>
          match u.discord
          case None => None
          case Some(d) => Some(d.uid)
  }

  /** What `unload_cog` does: the `remove_cog` calls it makes and the line it prints. */
  datatype UnloadEffect = UnloadEffect(removeCogCalls: seq<string>, printed: string)

  /** `unload_cog(bot, name)`; `removeError` is the text of the exception `remove_cog` raises, if any.
      The function is total: no outcome of `remove_cog` escapes as an exception. */
  function UnloadCog(cogName: string, removeError: Option<string>): (e: UnloadEffect)
    ensures e.removeCogCalls == [cogName]
    ensures removeError.None? ==> e.printed == "Unloaded " + cogName + " successfully."
    ensures removeError.Some? ==> e.printed == "Failed to unload " + cogName + ": " + removeError.value
  {
    var printed :=
      if removeError.None? then "Unloaded " + cogName + " successfully."
      else "Failed to unload " + cogName + ": " + removeError.value;
    UnloadEffect([cogName], printed)
  }

  /** A reader of the log can tell success from failure: the report starts with `Unloaded` exactly on success. */
  lemma UnloadReportDistinguishes(cogName: string, removeError: Option<string>)
    ensures (UnloadCog(cogName, removeError).printed[..8] == "Unloaded") <==> removeError.None?
  {
    var p := UnloadCog(cogName, removeError).printed;
    if removeError.Some? {
      assert p[0] == 'F';
    }
  }
}
