/**
 * `book_appointment`: check the credential, configure the client and the
 * browser, compile the task, build the agent, run it, turn its outcome into a
 * result, and close the agent on every way out of the run.  The agent run
 * itself is external, so its outcome is a parameter; the booker records what
 * it built and how many agents it has closed.
 */
module Booking {
  import opened Wrappers
  import AppointmentModel
  import TaskCompiler
  import NvidiaNim
  import ResultExtractor

  const MissingCredentialMessage: string := "NVIDIA_API_KEY environment variable is required"

  /** The keyword defaults of `book_appointment`. */
  const DefaultMaxSteps: int := 50
  const DefaultHeadless: bool := false
  const DefaultUseVision: bool := true

  /** The `ValueError` raised before anything is built. */
  datatype BookingError = MissingCredential(message: string)

  /** What a call ends with: a result returned, or the error raised. */
  datatype Outcome =
    | Booked(result: ResultExtractor.AppointmentResult)
    | Refused(error: BookingError)

  /** The browser session's settings. */
  datatype BrowserSpec = BrowserSpec(headless: bool, disableSecurity: bool)

  /**
   * What the agent is built from, as far as this model follows it, and the
   * step budget it is run with.  The tool registry and the output schema,
   * which are the same for every call, are not recorded.
   */
  datatype AgentSpec = AgentSpec(
    task: string,
    llm: NvidiaNim.ChatNvidiaNim,
    browser: BrowserSpec,
    useVision: bool,
    maxSteps: int)

  /** `if not api_key`: an absent and an empty variable both fail. */
  function CredentialPresent(apiKey: Option<string>): (ok: bool)
    ensures ok <==> apiKey.Some? && |apiKey.value| > 0
  {
    match apiKey
    case None => false
    case Some(k) => k != ""
  }

  /** The agent a call with a present credential builds. */
  function AgentFor(url: string, data: AppointmentModel.AppointmentData, apiKey: string,
                    maxSteps: int, headless: bool, useVision: bool): AgentSpec
  {
    AgentSpec(TaskCompiler.Task(url, data), NvidiaNim.BookingClient(apiKey),
              BrowserSpec(headless, false), useVision, maxSteps)
  }

  class Booker {
    /** Agents built so far. */
    var agentsBuilt: nat
    /** Calls of the agent's `close` so far. */
    var closeCount: nat
    /** The agent the latest successful call built. */
    var lastAgent: Option<AgentSpec>

    /** Every agent that was built has been closed exactly once. */
    ghost predicate Valid()
      reads this
    {
      closeCount == agentsBuilt
    }

    constructor()
      ensures Valid() && agentsBuilt == 0 && closeCount == 0 && lastAgent == None
    {
      agentsBuilt := 0;
      closeCount := 0;
      lastAgent := None;
    }

    /**
     * Agent construction.  It leaves one agent open, so it breaks `Valid()`.
     * It is meant only as a step of `BookAppointment`, which closes that agent.
     */
    method BuildAgent(spec: AgentSpec)
      modifies this
      ensures agentsBuilt == old(agentsBuilt) + 1 && closeCount == old(closeCount)
      ensures lastAgent == Some(spec)
    {
      agentsBuilt := agentsBuilt + 1;
      lastAgent := Some(spec);
    }

    /**
     * The `finally` clean-up: `agent.close()`.  It restores `Valid()` only
     * after `BuildAgent`, and it is meant only as that step of `BookAppointment`.
     */
    method CloseAgent()
      modifies this
      ensures closeCount == old(closeCount) + 1
      ensures agentsBuilt == old(agentsBuilt) && lastAgent == old(lastAgent)
    {
      closeCount := closeCount + 1;
    }

    /**
     * One booking.  Without a usable credential the call raises before it
     * builds anything, so nothing changes.  With one, it builds exactly the
     * agent the inputs determine, returns the extracted result of the run and
     * closes the agent exactly once, whichever branch of the `try` produced
     * the result.
     */
    method BookAppointment(url: string, data: AppointmentModel.AppointmentData, apiKey: Option<string>,
                           maxSteps: int, headless: bool, useVision: bool,
                           run: ResultExtractor.RunOutcome) returns (out: Outcome)
      requires Valid()
      modifies this
      ensures Valid()
      ensures !CredentialPresent(apiKey) ==>
                out == Refused(MissingCredential(MissingCredentialMessage)) &&
                agentsBuilt == old(agentsBuilt) && closeCount == old(closeCount) && lastAgent == old(lastAgent)
      ensures CredentialPresent(apiKey) ==>
                out == Booked(ResultExtractor.Extract(run)) &&
                agentsBuilt == old(agentsBuilt) + 1 && closeCount == old(closeCount) + 1 &&
                lastAgent == Some(AgentFor(url, data, apiKey.value, maxSteps, headless, useVision))
    {
      if !CredentialPresent(apiKey) {
        return Refused(MissingCredential(MissingCredentialMessage));
      }
      var llm := NvidiaNim.BookingClient(apiKey.value);
      var browser := BrowserSpec(headless, false);
      var task := TaskCompiler.Task(url, data);
      BuildAgent(AgentSpec(task, llm, browser, useVision, maxSteps));
      var result: ResultExtractor.AppointmentResult;
      match run {
        case Structured(r) =>
          result := r;
        case Unstructured(ok, text) =>
          result := ResultExtractor.FallbackResult(ok, text);
        case Fault(e) =>
          result := ResultExtractor.ErrorResult(e);
      }
      CloseAgent();
      out := Booked(result);
    }

    /** A call that passes only the URL and the record: 50 steps, a visible browser, vision on. */
    method BookAppointmentWithDefaults(url: string, data: AppointmentModel.AppointmentData, apiKey: Option<string>,
                                       run: ResultExtractor.RunOutcome) returns (out: Outcome)
      requires Valid()
      modifies this
      ensures Valid()
      ensures !CredentialPresent(apiKey) ==>
                out == Refused(MissingCredential(MissingCredentialMessage)) &&
                agentsBuilt == old(agentsBuilt) && closeCount == old(closeCount) && lastAgent == old(lastAgent)
      ensures CredentialPresent(apiKey) ==>
                out == Booked(ResultExtractor.Extract(run)) &&
                agentsBuilt == old(agentsBuilt) + 1 && closeCount == old(closeCount) + 1 &&
                lastAgent == Some(AgentFor(url, data, apiKey.value, 50, false, true))
    {
      out := BookAppointment(url, data, apiKey, DefaultMaxSteps, DefaultHeadless, DefaultUseVision, run);
    }
  }

  // ---------------------------------------------------------------- properties

  /** The task an agent is given names the URL and carries the data back out. */
  lemma AgentTaskCarriesData(url: string, data: AppointmentModel.AppointmentData, apiKey: string,
                             maxSteps: int, headless: bool, useVision: bool)
    ensures TaskCompiler.RecoverData(url, AgentFor(url, data, apiKey, maxSteps, headless, useVision).task) == Some(data)
    ensures AgentFor(url, data, apiKey, maxSteps, headless, useVision).llm == NvidiaNim.Create(Some(apiKey), NvidiaNim.NoOverrides)
    ensures !AgentFor(url, data, apiKey, maxSteps, headless, useVision).browser.disableSecurity
  {
    TaskCompiler.TaskRoundTrip(url, data);
    NvidiaNim.BookingClientIsDefault(apiKey);
  }
}
