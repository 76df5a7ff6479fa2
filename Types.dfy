/** Shared record and enum shapes of the research assistant (types.ts),
    plus the two wrappers the rest of the model uses for absent values
    and for calls that either return or throw. */
module Types {

  /** A JavaScript value that may be `undefined`/`null`. */
  datatype Option<+T> = None | Some(value: T)

  /** The outcome of a call that either returns a value or throws. */
  datatype Result<+T, +E> = Ok(value: T) | Err(error: E)

  /** A value thrown by `throw`: an `Error` instance carries a message;
      anything else (a string, a plain object) does not. */
  datatype Thrown = ErrorObject(message: string) | NonErrorValue

  /** One citation attached to a search result. */
  datatype PaperSource = PaperSource(title: string, uri: string)

  /** What a grounded search returns to the search view. */
  datatype SearchResult = SearchResult(summary: string, sources: seq<PaperSource>)

  /** One entry of `riskFactors`. Scores are JavaScript numbers that the
      code only compares and copies; they are modelled as integers. */
  datatype RiskFactor = RiskFactor(name: string, value: int)

  /** One entry of `timeline`. */
  datatype TimelineStage = TimelineStage(stage: string, outcome: string)

  /** The parsed simulation response. Nothing bounds `confidenceScore` or
      the risk values: the code trusts whatever the parser produced. */
  datatype SimulationResult = SimulationResult(
    prediction: string,
    confidenceScore: int,
    riskFactors: seq<RiskFactor>,
    timeline: seq<TimelineStage>)

  /** The four screens the navigation shell can show. */
  datatype ViewState = Dashboard | Search | Simulation | Saved
}
