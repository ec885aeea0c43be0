/**
 * The closed vocabulary of the f3 launcher: the run status it reports, the
 * error codes it emits, the report it produces at the end of a run, and the
 * values the main window reads back from it when a status changes.
 */
module F3Launcher {

  datatype Option<+T> = None | Some(value: T)

  /** The run status the launcher announces through its status-changed signal. */
  datatype F3Status = Ready | Running | Finished | Stopped | Staged | Progressed

  /** The numeric value of each status member. */
  function StatusCode(s: F3Status): (code: int)
    ensures 0 <= code <= 5
  {
    match s
    case Ready => 0
    case Running => 1
    case Finished => 2
    case Stopped => 3
    case Staged => 4
    case Progressed => 5
  }

  /** The status member carrying a numeric value, if any. */
  function StatusFromCode(code: int): (s: Option<F3Status>)
    ensures s.Some? <==> 0 <= code <= 5
  {
    if code == 0 then Some(Ready)
    else if code == 1 then Some(Running)
    else if code == 2 then Some(Finished)
    else if code == 3 then Some(Stopped)
    else if code == 4 then Some(Staged)
    else if code == 5 then Some(Progressed)
    else None
  }

  lemma StatusCodeRoundTrip(s: F3Status)
    ensures StatusFromCode(StatusCode(s)) == Some(s)
  {
  }

  lemma StatusFromCodeRoundTrip(code: int)
    ensures StatusFromCode(code).Some? ==> StatusCode(StatusFromCode(code).value) == code
  {
  }

  /** The six members have six distinct codes, so the codes 0..5 are all used. */
  lemma StatusCodesDistinct()
    ensures forall a: F3Status, b: F3Status :: StatusCode(a) == StatusCode(b) ==> a == b
    ensures forall code :: 0 <= code <= 5 ==>
              StatusFromCode(code).Some? && StatusCode(StatusFromCode(code).value) == code
  {
    forall a: F3Status, b: F3Status | StatusCode(a) == StatusCode(b)
      ensures a == b
    {
      StatusCodeRoundTrip(a);
      StatusCodeRoundTrip(b);
    }
    forall code | 0 <= code <= 5
      ensures StatusFromCode(code).Some? && StatusCode(StatusFromCode(code).value) == code
    {
      StatusFromCodeRoundTrip(code);
    }
  }

  /** The error codes the launcher emits through its error signal. */
  datatype F3Error =
    | Ok
    | PathIncorrect
    | NoCui
    | NoPermission
    | NoSpace
    | NoProgress
    | NoQuick
    | CacheNotFound
    | NoMemory
    | NotDirectory
    | NotDisk
    | NotUSB
    | NoFix
    | NoReport
    | Oversize
    | Damaged
    | NotDevice
    | Unknown

  /** The numeric value of each error member. */
  function ErrorCode(e: F3Error): (code: int)
    ensures code == 0 || 128 <= code <= 143 || code == 255
  {
    match e
    case Ok => 0
    case PathIncorrect => 128
    case NoCui => 129
    case NoPermission => 130
    case NoSpace => 131
    case NoProgress => 132
    case NoQuick => 133
    case CacheNotFound => 134
    case NoMemory => 135
    case NotDirectory => 136
    case NotDisk => 137
    case NotUSB => 138
    case NoFix => 139
    case NoReport => 140
    case Oversize => 141
    case Damaged => 142
    case NotDevice => 143
    case Unknown => 255
  }

  /** The error member carrying a numeric value, if any. */
  function ErrorFromCode(code: int): (e: Option<F3Error>)
    ensures e.Some? <==> code == 0 || 128 <= code <= 143 || code == 255
  {
    if code == 0 then Some(Ok)
    else if code == 128 then Some(PathIncorrect)
    else if code == 129 then Some(NoCui)
    else if code == 130 then Some(NoPermission)
    else if code == 131 then Some(NoSpace)
    else if code == 132 then Some(NoProgress)
    else if code == 133 then Some(NoQuick)
    else if code == 134 then Some(CacheNotFound)
    else if code == 135 then Some(NoMemory)
    else if code == 136 then Some(NotDirectory)
    else if code == 137 then Some(NotDisk)
    else if code == 138 then Some(NotUSB)
    else if code == 139 then Some(NoFix)
    else if code == 140 then Some(NoReport)
    else if code == 141 then Some(Oversize)
    else if code == 142 then Some(Damaged)
    else if code == 143 then Some(NotDevice)
    else if code == 255 then Some(Unknown)
    else None
  }

  lemma ErrorCodeRoundTrip(e: F3Error)
    ensures ErrorFromCode(ErrorCode(e)) == Some(e)
  {
  }

  lemma ErrorFromCodeRoundTrip(code: int)
    ensures ErrorFromCode(code).Some? ==> ErrorCode(ErrorFromCode(code).value) == code
  {
  }

  /** No two error members share a code. */
  lemma ErrorCodesDistinct()
    ensures forall a: F3Error, b: F3Error :: ErrorCode(a) == ErrorCode(b) ==> a == b
  {
    forall a: F3Error, b: F3Error | ErrorCode(a) == ErrorCode(b)
      ensures a == b
    {
      ErrorCodeRoundTrip(a);
      ErrorCodeRoundTrip(b);
    }
  }

  /**
   * Ok is the only code 0; every other member is at least 128; the members
   * other than Ok and Unknown fill 128..143 exactly, and Unknown is 255.
   */
  lemma ErrorCodeLayout()
    ensures forall e: F3Error :: ErrorCode(e) == 0 <==> e == Ok
    ensures forall e: F3Error :: e != Ok ==> ErrorCode(e) >= 128
    ensures forall e: F3Error :: e != Ok && e != Unknown ==> 128 <= ErrorCode(e) <= 143
    ensures ErrorCode(Unknown) == 255
    ensures forall code :: 128 <= code <= 143 ==>
              && ErrorFromCode(code).Some?
              && ErrorFromCode(code).value !in {Ok, Unknown}
              && ErrorCode(ErrorFromCode(code).value) == code
  {
    forall code | 128 <= code <= 143
      ensures ErrorFromCode(code).Some? && ErrorCode(ErrorFromCode(code).value) == code
    {
      ErrorFromCodeRoundTrip(code);
    }
  }

  /**
   * The record the launcher hands out at the end of a run. Measurements are
   * text as the test tools print them; an empty text means the tool did not
   * report that measurement. The availability is kept as a whole percentage
   * of the claimed capacity; a negative value means it is unknown.
   */
  datatype Report = Report(
    success: bool,
    readingSpeed: string,
    writingSpeed: string,
    reportedFree: string,
    actualFree: string,
    lostSpace: string,
    availability: int,
    moduleSize: string,
    blockSize: string)

  /**
   * What the main window reads back from the launcher while handling a status
   * change: the report, the current stage and the progress in hundredths of a
   * percent.
   */
  datatype EngineView = EngineView(report: Report, stage: int, progress10K: int)
}
