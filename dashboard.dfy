/**
 * The CISO dashboard: three activation flags read once from the environment,
 * and the queries that look up and render signals and report the flags.
 */
module CisoDashboard {
  import opened Text
  import opened SignalRegistry

  /** The process environment, passed in: variable name to value. */
  type Environment = map<string, string>

  const ActiveVar: string := "ACTIVE"
  const SiganiosVar: string := "SIGANIOS_ENABLED"
  const AlertsVar: string := "ALERTS_ENABLED"

  /** `os.getenv(name, default)`. */
  function GetEnv(env: Environment, name: string, default: string): (v: string)
    ensures name in env ==> v == env[name]
    ensures name !in env ==> v == default
  {
    if name in env then env[name] else default
  }

  /** `v` is one of the sixteen upper/lower-case spellings of "true". */
  predicate SpellsTrue(v: string)
  {
    && |v| == 4
    && (v[0] == 't' || v[0] == 'T')
    && (v[1] == 'r' || v[1] == 'R')
    && (v[2] == 'u' || v[2] == 'U')
    && (v[3] == 'e' || v[3] == 'E')
  }

  /** Lower-casing yields "true" exactly for the case variants of "true". */
  lemma LowerIsTrueIff(v: string)
    ensures Lower(v) == "true" <==> SpellsTrue(v)
  {
  }

  /** `_env_flag(name)`: the variable, or "false" when it is unset, lower-cased and compared with "true". */
  function EnvFlag(env: Environment, name: string): (b: bool)
    ensures b <==> name in env && SpellsTrue(env[name])
  {
    LowerIsTrueIff(GetEnv(env, name, "false"));
    Lower(GetEnv(env, name, "false")) == "true"
  }

  /** A dashboard instance: the three flags it captured when it was built. */
  datatype Dashboard = Dashboard(active: bool, siganiosEnabled: bool, alertsEnabled: bool)
  {
    /** `get_signal`: the table's record for `l`; it cannot fail. */
    function GetSignal(l: RiskLevel): (s: Signal)
      ensures s == Signals(l)
      ensures s.riskLevel == l
    {
      Signals(l)
    }

    /** `render_signal`: the bracketed meaning alone when siganios are off, the full rendering when on. */
    function RenderSignal(l: RiskLevel): (r: string)
      ensures Contains(r, Signals(l).meaning)
      ensures !siganiosEnabled ==> !Contains(r, Signals(l).icon)
      ensures siganiosEnabled ==> Contains(r, Signals(l).icon) && Contains(r, Signals(l).color)
    {
      var s := GetSignal(l);
      if !siganiosEnabled then
        var r := "[" + s.meaning + "]";
        assert OccursAt(r, s.meaning, 1);
        assert forall i :: 0 <= i < |r| ==> IsAscii(r[i]);
        NoNonAsciiInAscii(r, s.icon);
        r
      else
        SignalStrContainsParts(s);
        SignalStr(s)
    }

    /** `status`: the three captured flags, keyed by name. */
    function Status(): (m: map<string, bool>)
      ensures m.Keys == {"active", "siganios_enabled", "alerts_enabled"}
      ensures m["active"] == active
      ensures m["siganios_enabled"] == siganiosEnabled
      ensures m["alerts_enabled"] == alertsEnabled
    {
      map["active" := active, "siganios_enabled" := siganiosEnabled, "alerts_enabled" := alertsEnabled]
    }
  }

  /** `Dashboard()`: each flag parsed by the same rule from its own variable. */
  function FromEnv(env: Environment): (d: Dashboard)
    ensures d.active <==> ActiveVar in env && SpellsTrue(env[ActiveVar])
    ensures d.siganiosEnabled <==> SiganiosVar in env && SpellsTrue(env[SiganiosVar])
    ensures d.alertsEnabled <==> AlertsVar in env && SpellsTrue(env[AlertsVar])
  {
    Dashboard(EnvFlag(env, ActiveVar), EnvFlag(env, SiganiosVar), EnvFlag(env, AlertsVar))
  }

  /** A flag depends on its own variable only: setting any other variable leaves it as it was. */
  lemma EnvFlagReadsOwnVariable(env: Environment, name: string, other: string, v: string)
    requires other != name
    ensures EnvFlag(env[other := v], name) == EnvFlag(env, name)
  {
  }

  /** How particular values parse: unset, and anything but a spelling of "true", is false. */
  lemma EnvFlagExamples(env: Environment, name: string)
    ensures name !in env ==> !EnvFlag(env, name)
    ensures EnvFlag(env[name := "true"], name)
    ensures EnvFlag(env[name := "TRUE"], name)
    ensures EnvFlag(env[name := "True"], name)
    ensures !EnvFlag(env[name := "1"], name)
    ensures !EnvFlag(env[name := ""], name)
    ensures !EnvFlag(env[name := "yes"], name)
    ensures !EnvFlag(env[name := "on"], name)
    ensures !EnvFlag(env[name := "false"], name)
  {
  }

  /** The two rendering modes, exactly: the bracketed meaning, or the signal's own rendering. */
  lemma RenderSignalModes(d: Dashboard, l: RiskLevel)
    ensures !d.siganiosEnabled ==> d.RenderSignal(l) == "[" + Signals(l).meaning + "]"
    ensures d.siganiosEnabled ==> d.RenderSignal(l) == SignalStr(Signals(l))
  {
  }

  /** Rendering depends on the level and the siganios flag only. */
  lemma RenderSignalIgnoresOtherFlags(d: Dashboard, e: Dashboard, l: RiskLevel)
    requires d.siganiosEnabled == e.siganiosEnabled
    ensures d.RenderSignal(l) == e.RenderSignal(l)
  {
  }

  /** With siganios off, no level's rendering contains any level's icon. */
  lemma DisabledRenderingHasNoIcon(d: Dashboard, l: RiskLevel, k: RiskLevel)
    requires !d.siganiosEnabled
    ensures !Contains(d.RenderSignal(l), Signals(k).icon)
  {
  }

  /** The status of a freshly built dashboard reports the environment's flags. */
  lemma StatusFromEnv(env: Environment)
    ensures FromEnv(env).Status() == map[
      "active" := EnvFlag(env, ActiveVar),
      "siganios_enabled" := EnvFlag(env, SiganiosVar),
      "alerts_enabled" := EnvFlag(env, AlertsVar)]
  {
  }

  /** With none of the three variables set every flag is off, whatever else the environment holds. */
  lemma AllUnsetAllOff(env: Environment)
    requires ActiveVar !in env && SiganiosVar !in env && AlertsVar !in env
    ensures FromEnv(env) == Dashboard(false, false, false)
    ensures FromEnv(env).Status() ==
      map["active" := false, "siganios_enabled" := false, "alerts_enabled" := false]
  {
  }

  /** With all three variables set to "true" every flag is on, whatever else the environment holds. */
  lemma AllTrueAllOn(env: Environment)
    requires ActiveVar in env && env[ActiveVar] == "true"
    requires SiganiosVar in env && env[SiganiosVar] == "true"
    requires AlertsVar in env && env[AlertsVar] == "true"
    ensures FromEnv(env).Status() ==
      map["active" := true, "siganios_enabled" := true, "alerts_enabled" := true]
  {
    assert SpellsTrue(env[ActiveVar]) && SpellsTrue(env[SiganiosVar]) && SpellsTrue(env[AlertsVar]);
  }

  /** A dashboard with siganios off renders the bracketed meaning. */
  lemma DisabledRendersBracketed(d: Dashboard, l: RiskLevel)
    requires !d.siganiosEnabled
    ensures d.RenderSignal(l) == "[" + Signals(l).meaning + "]"
  {
    RenderSignalModes(d, l);
  }

  /** The bracketed meaning of High, code point by code point. */
  lemma HighBracketed()
    ensures "[" + Signals(High).meaning + "]" == "[Critical / High Risk]"
  {
  }

  /** With the siganios variable unset, High renders as its bracketed meaning. */
  lemma RenderHighDisabled(env: Environment)
    requires SiganiosVar !in env
    ensures FromEnv(env).RenderSignal(High) == "[Critical / High Risk]"
  {
    DisabledRendersBracketed(FromEnv(env), High);
    HighBracketed();
  }

  /** With the siganios variable set to "true", Low renders with its icon and colour. */
  lemma RenderLowEnabled(env: Environment)
    requires SiganiosVar in env && env[SiganiosVar] == "true"
    ensures FromEnv(env).RenderSignal(Low) == "\U{2705} [Green] Compliant / Low Risk"
  {
    var d := FromEnv(env);
    assert SpellsTrue(env[SiganiosVar]) && d.siganiosEnabled;
    RenderSignalModes(d, Low);
    LowRendering();
  }
}
