/**
  Update helpers: the chat an update belongs to, the JSON rendering of a
  value without its trailing newlines, and the dependency record handed to
  the handlers.
*/
module Utils {
  import opened Wrappers
  import opened Telegram
  import Logx
  import Config
  import Cache
  import I18n
  import RepoList

  // ---- the chat of an update ----

  /** Dereferencing a nil pointer. */
  datatype Panic = NilDereference

  /** `ChatIDFromUpdate`: the message's chat; else the chat of the callback's
      message, which must be accessible; else 0. */
  function ChatIDFromUpdate(u: Update): (r: Result<int, Panic>)
    ensures u.message.Some? ==> r == Ok(u.message.value.chat.id)
    ensures u.message.None? && u.callbackQuery.Some? && u.callbackQuery.value.message.Some? ==>
      r == Ok(u.callbackQuery.value.message.value.chat.id)
    ensures r.Err? <==> u.message.None? && u.callbackQuery.Some? && u.callbackQuery.value.message.None?
    ensures u.message.None? && u.callbackQuery.None? ==> r == Ok(0)
  {
    if u.message.Some? then Ok(u.message.value.chat.id)
    else if u.callbackQuery.Some? then
      match u.callbackQuery.value.message
      case Some(m) => Ok(m.chat.id)
      case None => Err(NilDereference)
    else Ok(0)
  }

  /** A non-zero chat ID is the chat of a message the update carries. */
  lemma ChatIDFromCarriedMessage(u: Update)
    requires ChatIDFromUpdate(u).Ok? && ChatIDFromUpdate(u).value != 0
    ensures (u.message.Some? && u.message.value.chat.id == ChatIDFromUpdate(u).value)
         || (u.callbackQuery.Some? && u.callbackQuery.value.message.Some?
             && u.callbackQuery.value.message.value.chat.id == ChatIDFromUpdate(u).value)
  {
  }

  /** The message wins over the callback query: replacing the callback query
      of an update that has a message changes nothing. */
  lemma MessageTakesPriority(u: Update, q: Option<CallbackQuery>)
    requires u.message.Some?
    ensures ChatIDFromUpdate(u.(callbackQuery := q)) == ChatIDFromUpdate(u)
  {
  }

  // ---- JSON ----

  newtype Byte = b: int | 0 <= b < 256

  const Newline: Byte := 10

  /** `bytes.TrimRight(b, "\n")`: every trailing newline removed. */
  function TrimNewlines(b: seq<Byte>): (r: seq<Byte>)
    ensures |r| <= |b| && r == b[..|r|]
    ensures r == [] || r[|r| - 1] != Newline
    ensures forall i :: |r| <= i < |b| ==> b[i] == Newline
  {
    if b != [] && b[|b| - 1] == Newline then TrimNewlines(b[..|b| - 1]) else b
  }

  /** Appending newlines to a text that does not end in one is undone by the trim. */
  lemma {:induction false} TrimNewlinesAppended(b: seq<Byte>, n: nat)
    requires b == [] || b[|b| - 1] != Newline
    ensures TrimNewlines(b + seq(n, _ => Newline)) == b
  {
    if n > 0 {
      var s := b + seq(n, _ => Newline);
      assert s[..|s| - 1] == b + seq(n - 1, _ => Newline);
      TrimNewlinesAppended(b, n - 1);
    } else {
      assert b + seq(0, _ => Newline) == b;
    }
  }

  /** `JSON`: the encoder's output (a value followed by its newline, or an
      error), as the encoder is configured by `pretty` and `escapeHTML`,
      with trailing newlines removed; nil on an encoder error. */
  function JSON(encoded: Result<seq<Byte>, string>): (r: Result<seq<Byte>, string>)
    ensures encoded.Err? ==> r == encoded
    ensures encoded.Ok? ==> r.Ok? && r.value == TrimNewlines(encoded.value)
    ensures r.Ok? ==> r.value == [] || r.value[|r.value| - 1] != Newline
  {
    match encoded
    case Err(e) => Err(e)
    case Ok(b) => Ok(TrimNewlines(b))
  }

  // ---- the dependency record ----

  class HandlerDeps {
    const logger: Logx.Logger?
    const cfg: Config.Config
    const repositoryList: RepoList.RepositoryList?
    const cache: Cache.CacheClient?
    const i18n: I18n.Bundle?

    /** `NewDeps`: each dependency kept as given. */
    constructor (logger: Logx.Logger?, cfg: Config.Config, repositoryList: RepoList.RepositoryList?,
                 cache: Cache.CacheClient?, i18n: I18n.Bundle?)
      ensures this.logger == logger && this.cfg == cfg && this.repositoryList == repositoryList
      ensures this.cache == cache && this.i18n == i18n
    {
      this.logger := logger;
      this.cfg := cfg;
      this.repositoryList := repositoryList;
      this.cache := cache;
      this.i18n := i18n;
    }
  }
}
