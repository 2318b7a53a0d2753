/** `shutdown` (GET /config/exit): a one-way switch on `app.state.is_running`.
    Stopping the event loop from a thread is not part of this model. */
module ConfigApi {
  import opened Wrappers
  import opened Http

  const ShutdownFailure: HttpException := HttpException(500, "Failed to shut down the server.")
  const ShuttingDown: string := "Server is shutting down."

  /** `app.state`; `isRunning` is None while the attribute does not exist. */
  class AppState {
    var isRunning: Option<bool>

    constructor (isRunning: Option<bool>)
      ensures this.isRunning == isRunning
    {
      this.isRunning := isRunning;
    }
  }

  /** The new value of `is_running` and the response. */
  datatype Shutdown = Shutdown(isRunning: Option<bool>, response: Result<string, HttpException>)

  function ShutdownStep(isRunning: Option<bool>): (r: Shutdown)
    ensures r.response.Ok? <==> isRunning == Some(true)
    ensures r.response.Ok? ==> r.response.value == ShuttingDown && r.isRunning == Some(false)
    ensures r.response.Err? ==> r.response.error == ShutdownFailure && r.isRunning == isRunning
  {
    if isRunning.None? then Shutdown(isRunning, Err(ShutdownFailure))
    else if !isRunning.value then Shutdown(isRunning, Err(ShutdownFailure))
    else Shutdown(Some(false), Ok(ShuttingDown))
  }

  /** The switch is one-way: after a shutdown that succeeded, the next one fails. */
  lemma SecondShutdownFails(isRunning: Option<bool>)
    requires ShutdownStep(isRunning).response.Ok?
    ensures ShutdownStep(ShutdownStep(isRunning).isRunning).response == Err(ShutdownFailure)
  {
  }

  method ShutdownServer(state: AppState) returns (r: Result<string, HttpException>)
    modifies state
    ensures Shutdown(state.isRunning, r) == ShutdownStep(old(state.isRunning))
  {
    if state.isRunning.None? {
      return Err(ShutdownFailure);
    }
    if !state.isRunning.value {
      return Err(ShutdownFailure);
    }
    state.isRunning := Some(false);
    return Ok(ShuttingDown);
  }
}
