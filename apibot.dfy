/** The control API of api/bot.py: `start_bot`, `stop_bot` and `bot_status`
    as transitions of the module globals `bot_instance`, `bot_thread` and
    `bot_running`, and the two writes of `run_bot` (the body of the
    background thread) to `bot_instance.running`. */
module ApiBot {
  import opened Settings
  import opened BotSpec
  import opened InstaBot
  import opened Wrappers

  /** An HTTP reply: the status code and the two fields of the JSON body. */
  datatype Response = Response(code: int, status: string, message: string)

  /** What raises inside the `try` of `start_bot`, with the text of the exception. */
  datatype StartFault = NoFault | BotInitRaises(reason: string) | ThreadStartRaises(reason: string)

  /** A `threading.Thread` object; what it runs is left abstract. */
  class BotThread {
    constructor ()
    {
    }
  }

  class Controller {
    const cfg: Config
    var botInstance: InstagramBot?
    var botThread: BotThread?
    var botRunning: bool

    /** Whenever the flag says running, a bot and its thread exist. */
    ghost predicate Valid()
      reads this
    {
      botRunning ==> botInstance != null && botThread != null
    }

    /** The module globals as the module is imported. */
    constructor (cfg: Config)
      ensures Valid() && this.cfg == cfg
      ensures botInstance == null && botThread == null && !botRunning
    {
      this.cfg := cfg;
      botInstance := null;
      botThread := null;
      botRunning := false;
    }

    /** `start_bot()` at clock reading `now`. */
    method StartBot(now: int, fault: StartFault) returns (resp: Response)
      requires Valid()
      modifies this
      ensures Valid()
      ensures old(botRunning) ==>
        resp == Response(400, "error", "Bot is already running") && unchanged(this)
      ensures !old(botRunning) && fault.BotInitRaises? ==>
        resp == Response(500, "error", fault.reason) && unchanged(this)
      ensures !old(botRunning) && !fault.BotInitRaises? ==>
        && fresh(botInstance) && fresh(botThread)
        && botInstance.cfg == cfg && botInstance.Valid()
        && botInstance.State() == BotState(0, now, now, {}, None)
        && !botInstance.running && botInstance.calls == []
      ensures !old(botRunning) && fault.ThreadStartRaises? ==>
        resp == Response(500, "error", fault.reason) && !botRunning
      ensures !old(botRunning) && fault.NoFault? ==>
        resp == Response(200, "success", "Bot started successfully") && botRunning
    {
      if botRunning {
        return Response(400, "error", "Bot is already running");
      }
      if fault.BotInitRaises? {
        return Response(500, "error", fault.reason);
      }
      botInstance := new InstagramBot(cfg, now);
      botThread := new BotThread();
      if fault.ThreadStartRaises? {
        // the thread object exists but start() raised: the flag stays down
        return Response(500, "error", fault.reason);
      }
      botRunning := true;
      resp := Response(200, "success", "Bot started successfully");
    }

    /** `stop_bot()`. `joinFault` is the text of an exception raised while
        joining, if any; how long the join waited is not observable here, so
        the outcome is the same whether or not the thread finished. */
    method StopBot(joinFault: Option<string>) returns (resp: Response)
      requires Valid()
      modifies this, botInstance
      ensures Valid()
      ensures botInstance == old(botInstance) && botThread == old(botThread)
      ensures botInstance != null ==> botInstance.State() == old(botInstance.State())
      ensures botInstance != null ==> botInstance.calls == old(botInstance.calls)
      ensures !old(botRunning) ==>
        && resp == Response(400, "error", "Bot is not running") && !botRunning
        && (botInstance != null ==> botInstance.running == old(botInstance.running))
      ensures old(botRunning) ==> !botInstance.running
      ensures old(botRunning) && joinFault.None? ==>
        resp == Response(200, "success", "Bot stopped successfully") && !botRunning
      ensures old(botRunning) && joinFault.Some? ==>
        resp == Response(500, "error", joinFault.value) && botRunning
    {
      if !botRunning {
        return Response(400, "error", "Bot is not running");
      }
      if botInstance != null {
        botInstance.running := false;
      }
      if botThread != null && joinFault.Some? {
        return Response(500, "error", joinFault.value);
      }
      botRunning := false;
      resp := Response(200, "success", "Bot stopped successfully");
    }

    /** `bot_status()`: reports the flag, and changes nothing. */
    function BotStatus(): (r: Response)
      reads this
      ensures r.code == 200
      ensures r.status == "running" <==> botRunning
      ensures r.status == "stopped" <==> !botRunning
    {
      if botRunning then Response(200, "running", "Bot is currently running")
      else Response(200, "stopped", "Bot is not running")
    }

    /** The first statement of `run_bot`: the bot that the global names now
        is marked running. */
    method RunBotBegins()
      modifies botInstance
      ensures botInstance != null ==> botInstance.running && botInstance.State() == old(botInstance.State())
      ensures botInstance != null ==> botInstance.calls == old(botInstance.calls)
    {
      if botInstance != null {
        botInstance.running := true;
      }
    }

    /** The last statement of `run_bot`, once `run()` has returned: the bot
        that the global names at that moment (perhaps a newer one) is marked
        stopped, and `bot_running` is left as it was. */
    method RunBotEnds()
      modifies botInstance
      ensures botInstance != null ==> !botInstance.running && botInstance.State() == old(botInstance.State())
      ensures botInstance != null ==> botInstance.calls == old(botInstance.calls)
      ensures botRunning == old(botRunning)
    {
      if botInstance != null {
        botInstance.running := false;
      }
    }
  }
}
