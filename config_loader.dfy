/** The configuration registry: jackpot configurations by jackpot id. A lookup of
    an unknown id yields Java's null, modelled as `None`. */
module ConfigLoader {
  import opened Model

  class JackpotConfigLoader {
    var jackpotConfigs: map<string, JackpotConfig>

    constructor()
      ensures jackpotConfigs == map[]
    {
      jackpotConfigs := map[];
    }

    /** Registers `config` for `jackpotId`, replacing any earlier configuration. */
    method AddJackpotConfig(jackpotId: string, config: JackpotConfig)
      modifies this
      ensures jackpotConfigs == old(jackpotConfigs)[jackpotId := config]
      ensures GetJackpotConfig(jackpotId) == Some(config)
      ensures forall id :: id != jackpotId ==> GetJackpotConfig(id) == old(GetJackpotConfig(id))
    {
      jackpotConfigs := jackpotConfigs[jackpotId := config];
    }

    /** The configuration registered for `jackpotId`, or none. */
    function GetJackpotConfig(jackpotId: string): (r: Option<JackpotConfig>)
      reads this
      ensures r.None? <==> jackpotId !in jackpotConfigs
      ensures r.Some? ==> r.value == jackpotConfigs[jackpotId]
    {
      if jackpotId in jackpotConfigs then Some(jackpotConfigs[jackpotId]) else None
    }
  }
}
