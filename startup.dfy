/** What `main` does before entering its loop: the credentials guard and
    the initial loop state. */
module Startup {
  import opened JsonValue
  import opened Homework

  /** The operand of the guard's `not`: the function object `check_tokens`
      itself, or the value a call `check_tokens()` returns. */
  datatype GuardOperand = FunctionObject | Called(result: bool)

  /** Python's truth value of the operand. A function object defines
      neither `__bool__` nor `__len__`, so it is always true. */
  function Truthy(v: GuardOperand): bool {
    match v
    case FunctionObject => true
    case Called(result) => result
  }

  /** `if not <operand>: ... raise`, then the initial loop state: None when
      the guard raises, otherwise the state the loop is entered with. */
  function Launch(operand: GuardOperand, now: int): Option<State> {
    if !Truthy(operand) then None else Some(Initial(now))
  }

  /** The guard as written, `if not check_tokens:`, negates the function
      object instead of calling it, so it is False for every environment. */
  function GuardFiresAsWritten(env: Env): (fires: bool)
    ensures !fires
  {
    !Truthy(FunctionObject)
  }

  /** The guard as intended, `if not check_tokens():`. */
  function Guard(env: Env): (fires: bool)
    ensures fires <==> PracticumTokenVar !in env || TelegramTokenVar !in env || ChatIdVar !in env
  {
    !Truthy(Called(CheckTokens(env)))
  }

  /** Startup as written: whatever the environment, `main` passes the
      guard; it agrees with the intended startup whenever the settings are
      all present. */
  function StartAsWritten(env: Env, now: int): (r: Option<State>)
    ensures r.Some? && r.value.cache == JNull && r.value.timestamp == now
    ensures CheckTokens(env) ==> r == Start(env, now)
  {
    Launch(FunctionObject, now)
  }

  /** Startup with the intended guard: a missing setting stops `main`
      before the loop (None); otherwise the loop starts with nothing cached
      and the clock as its timestamp. */
  function Start(env: Env, now: int): (r: Option<State>)
    ensures r.None? <==> !CheckTokens(env)
    ensures r.Some? ==> r.value.cache == JNull && r.value.timestamp == now
  {
    Launch(Called(CheckTokens(env)), now)
  }

  /** With the bot token set but another setting missing, the token check
      fails, yet startup as written passes the guard and reaches the loop,
      where the intended startup stops. */
  lemma MissingTokensDoNotStopStartup(env: Env, now: int)
    requires TelegramTokenVar in env && !CheckTokens(env)
    ensures StartAsWritten(env, now).Some?
    ensures Start(env, now).None?
  {
  }
}
