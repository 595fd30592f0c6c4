/**
 * The extension's one bot: `startBot` and `stopBot` move the module-level
 * `bot` between "no bot" and "a bot for the configured token". The Telegram
 * client, its handlers and the notifications are not modelled; whether the
 * synchronous part of the setup throws, and whether `bot.stop` throws, are
 * parameters.
 */
module BotLifecycle {
  import opened Wrappers
  import opened BotCommands

  /** A created bot: the token it polls with and the chat id its handlers captured. */
  datatype Bot = Bot(token: string, allowedChatId: Option<string>)

  datatype StartOutcome = MissingToken | AlreadyRunning | Launched | SetupFailed
  datatype StopOutcome = NotRunning | Stopped | StopThrew

  /** The extension module's state: the `bot` variable. */
  class Extension {
    var bot: Option<Bot>

    /** A bot exists only for a non-empty token. */
    predicate Valid()
      reads this
    {
      bot.Some? ==> bot.value.token != ""
    }

    /** Module load: no bot. */
    constructor ()
      ensures bot.None? && Valid()
    {
      bot := None;
    }

    /**
     * `startBot`, up to the unawaited `bot.launch()`. Without a token, or with
     * a bot already running, nothing changes. Otherwise a bot is created for
     * the token with the chat id read at that moment; a synchronous throw
     * during the setup resets `bot` to none.
     */
    method StartBot(tokenSetting: Option<string>, chatIdSetting: Option<string>, setupThrows: bool)
      returns (r: StartOutcome)
      requires Valid()
      modifies this
      ensures Valid()
      ensures r == MissingToken <==> !Truthy(tokenSetting)
      ensures r == AlreadyRunning <==> Truthy(tokenSetting) && old(bot).Some?
      ensures r == MissingToken || r == AlreadyRunning ==> bot == old(bot)
      ensures r == SetupFailed <==> Truthy(tokenSetting) && old(bot).None? && setupThrows
      ensures r == SetupFailed ==> bot.None?
      ensures r == Launched <==> Truthy(tokenSetting) && old(bot).None? && !setupThrows
      ensures r == Launched ==> bot == Some(Bot(tokenSetting.value, ConfiguredString(chatIdSetting)))
    {
      var token := ConfiguredString(tokenSetting);
      if token.None? {
        return MissingToken;
      }
      if bot.Some? {
        return AlreadyRunning;
      }
      bot := Some(Bot(token.value, ConfiguredString(chatIdSetting)));
      if setupThrows {
        bot := None;
        return SetupFailed;
      }
      r := Launched;
    }

    /** `stopBot`: with a bot, stop it and forget it; a throwing `bot.stop` leaves `bot` as it was. */
    method StopBot(stopThrows: bool) returns (r: StopOutcome)
      requires Valid()
      modifies this
      ensures Valid()
      ensures r == NotRunning <==> old(bot).None?
      ensures r == Stopped <==> old(bot).Some? && !stopThrows
      ensures r == Stopped ==> bot.None?
      ensures r != Stopped ==> bot == old(bot)
    {
      if bot.None? {
        return NotRunning;
      }
      if stopThrows {
        return StopThrew;
      }
      bot := None;
      r := Stopped;
    }

    /**
     * The settings panel's `save`: `stopBot()` then `startBot()` with the new
     * settings. A throw from `stopBot` leaves the callback, so `startBot` is
     * not called (`started` is `None`) and the old bot stays. Otherwise the
     * bot that runs afterwards is the one for the new token and chat id.
     */
    method SaveSettings(token: Option<string>, chatId: Option<string>, stopThrows: bool, setupThrows: bool)
      returns (stopped: StopOutcome, started: Option<StartOutcome>)
      requires Valid()
      modifies this
      ensures Valid()
      ensures stopped == NotRunning <==> old(bot).None?
      ensures stopped == Stopped <==> old(bot).Some? && !stopThrows
      ensures started.None? <==> stopped == StopThrew
      ensures started.Some? ==>
                started.value == if !Truthy(token) then MissingToken else if setupThrows then SetupFailed else Launched
      ensures stopped == StopThrew ==> bot == old(bot)
      ensures stopped != StopThrew && Truthy(token) && !setupThrows ==>
                started == Some(Launched) && bot == Some(Bot(token.value, ConfiguredString(chatId)))
      ensures stopped != StopThrew && !(Truthy(token) && !setupThrows) ==> bot.None?
    {
      stopped := StopBot(stopThrows);
      if stopped == StopThrew {
        started := None;
      } else {
        var r := StartBot(token, chatId, setupThrows);
        started := Some(r);
      }
    }
  }
}
