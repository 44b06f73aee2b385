/** The chat session store (chat_session.go): the append-only list of
    questions asked in one conversation, the context flag, the statistics
    derived from the list and the plain-text transcript. */
module Session {
  import opened Common
  import opened Decimal

  /** An instant (time.Time), as nanoseconds on the wall clock. */
  type Time = int

  /** A time.Duration: a count of nanoseconds. */
  type Duration = int

  /** One exchange: the question, the answer or the error, and timing. */
  datatype Question = Question(
    ID: int,
    Text: string,
    Response: string,
    Timestamp: Time,
    ProcessTime: Duration,
    Success: bool,
    Error: string)

  /** The statistics GetStats derives from a session. */
  datatype SessionStats = SessionStats(
    TotalQuestions: int,
    SuccessfulQuestions: int,
    FailedQuestions: int,
    SessionDuration: Duration,
    AverageProcessTime: Duration,
    ModelUsed: string)

  /** How the transcript renders times: the layout "02/01/2006 15:04:05" of
      the start time, the layout "15:04:05" of a question's timestamp, and
      `%v` of a processing time rounded to the millisecond. */
  datatype Formats = Formats(
    dateTime: Time -> string,
    clock: Time -> string,
    roundedMillis: Duration -> string)

  /** Record k of the history carries ID k + 1. */
  ghost predicate IdsArePositions(qs: seq<Question>) {
    forall k :: 0 <= k < |qs| ==> qs[k].ID == k + 1
  }

  /** How many questions were answered. */
  function SuccessCount(qs: seq<Question>): nat {
    if qs == [] then 0
    else SuccessCount(qs[..|qs| - 1]) + (if qs[|qs| - 1].Success then 1 else 0)
  }

  /** The answered questions, in history order. */
  function SuccessfulOf(qs: seq<Question>): seq<Question> {
    Flatten(qs, (q: Question) => if q.Success then [q] else [])
  }

  /** SuccessfulOf keeps exactly the answered questions, and there are
      SuccessCount of them. */
  lemma {:induction false} SuccessfulOfSelects(qs: seq<Question>)
    ensures |SuccessfulOf(qs)| == SuccessCount(qs)
    ensures forall q :: q in SuccessfulOf(qs) <==> q in qs && q.Success
  {
    if qs != [] {
      var init, last := qs[..|qs| - 1], qs[|qs| - 1];
      SuccessfulOfSelects(init);
      assert qs == init + [last];
    }
  }

  /** The processing time of every question, failed ones included. */
  function TotalProcessTime(qs: seq<Question>): Duration {
    if qs == [] then 0 else TotalProcessTime(qs[..|qs| - 1]) + qs[|qs| - 1].ProcessTime
  }

  lemma {:induction false} SuccessCountBounded(qs: seq<Question>)
    ensures SuccessCount(qs) <= |qs|
    ensures SuccessCount(qs) == |qs| <==> forall k :: 0 <= k < |qs| ==> qs[k].Success
    ensures SuccessCount(qs) == 0 <==> forall k :: 0 <= k < |qs| ==> !qs[k].Success
  {
    if qs != [] {
      var init := qs[..|qs| - 1];
      SuccessCountBounded(init);
      assert forall k :: 0 <= k < |init| ==> init[k] == qs[k];
    }
  }

  /** calculateAverageTime: zero for no successes, the truncated quotient
      otherwise. */
  function CalculateAverageTime(total: Duration, count: int): (r: Duration)
    ensures count == 0 ==> r == 0
    ensures count > 0 && total >= 0 ==> 0 <= r && r * count <= total < (r + 1) * count
    ensures count != 0 ==> Abs(r) * Abs(count) <= Abs(total) < (Abs(r) + 1) * Abs(count)
  {
    if count == 0 then 0 else TruncDiv(total, count)
  }

  /** The statistics of a history, as GetStats computes them. */
  function StatsOf(qs: seq<Question>, modelName: string, sessionDuration: Duration): SessionStats {
    var successful := SuccessCount(qs);
    SessionStats(
      |qs|, successful, |qs| - successful, sessionDuration,
      CalculateAverageTime(TotalProcessTime(qs), successful), modelName)
  }

  /** The statistics invariants, for any history. */
  lemma StatsConsistent(qs: seq<Question>, modelName: string, sessionDuration: Duration)
    ensures var st := StatsOf(qs, modelName, sessionDuration);
      && st.TotalQuestions == |qs|
      && 0 <= st.SuccessfulQuestions <= st.TotalQuestions
      && st.FailedQuestions == st.TotalQuestions - st.SuccessfulQuestions
      && (st.SuccessfulQuestions == 0 <==> forall k :: 0 <= k < |qs| ==> !qs[k].Success)
      && (st.SuccessfulQuestions == 0 ==> st.AverageProcessTime == 0)
      && (st.SuccessfulQuestions > 0 ==>
            st.AverageProcessTime == TruncDiv(TotalProcessTime(qs), st.SuccessfulQuestions))
  {
    SuccessCountBounded(qs);
  }

  /** A failed question adds its processing time to the total that is
      averaged, but not to the count it is divided by. */
  lemma FailedQuestionWeighsOnAverage(qs: seq<Question>, q: Question)
    requires !q.Success
    ensures SuccessCount(qs + [q]) == SuccessCount(qs)
    ensures TotalProcessTime(qs + [q]) == TotalProcessTime(qs) + q.ProcessTime
  {
    assert (qs + [q])[..|qs|] == qs;
  }

  /** The response as ShowHistory displays it: cut to its first 200
      characters followed by "..." when it is longer than that. */
  function DisplayedResponse(response: string): (r: string)
    ensures |response| <= 200 ==> r == response
    ensures |response| > 200 ==> |r| == 203 && r[..200] == response[..200] && r[200..] == "..."
  {
    if |response| > 200 then response[..200] + "..." else response
  }

  const Divider: string := Repeat('-', 50) + "\n\n"

  const ContextOnStatus: string :=
    "\U{1F9E0} Contexto: ATIVADO - O modelo lembrará das perguntas anteriores"
  const ContextOffStatus: string :=
    "\U{1F9E0} Contexto: DESATIVADO - Cada pergunta será independente"

  /** The header of the transcript. */
  function ExportHeader(startTime: Time, modelName: string, count: int, f: Formats): string {
    "=== SESSÃO DE CHAT - " + f.dateTime(startTime) + " ===\n"
      + "Modelo: " + modelName + "\n"
      + "Total de perguntas: " + IntToDecimal(count) + "\n\n"
  }

  /** The lines that open a question's block. */
  function BlockHeading(q: Question, f: Formats): string {
    "PERGUNTA " + IntToDecimal(q.ID) + " [" + f.clock(q.Timestamp) + "]:\n" + q.Text + "\n\n"
  }

  /** The lines that report a question's outcome. */
  function BlockOutcome(q: Question, f: Formats): string {
    if q.Success then
      "RESPOSTA:\n" + q.Response + "\n" + "(Processado em " + f.roundedMillis(q.ProcessTime) + ")\n\n"
    else
      "ERRO: " + q.Error + "\n\n"
  }

  /** One question's block of the transcript. */
  function ExportBlock(q: Question, f: Formats): string {
    BlockHeading(q, f) + BlockOutcome(q, f) + Divider
  }

  /** The blocks of all questions, in history order. */
  function ExportBody(qs: seq<Question>, f: Formats): string {
    Flatten(qs, q => ExportBlock(q, f))
  }

  /** The whole transcript ExportHistory produces. */
  function ExportText(startTime: Time, modelName: string, qs: seq<Question>, f: Formats): string {
    ExportHeader(startTime, modelName, |qs|, f) + ExportBody(qs, f)
  }

  /** A block reports the response exactly when the question succeeded and
      the error otherwise, and always ends with the divider. */
  lemma ExportBlockLayout(q: Question, f: Formats)
    ensures var b, h := ExportBlock(q, f), |BlockHeading(q, f)|;
      && b[..h] == "PERGUNTA " + IntToDecimal(q.ID) + " [" + f.clock(q.Timestamp) + "]:\n" + q.Text + "\n\n"
      && (q.Success ==> b[h..h + 11 + |q.Response|] == "RESPOSTA:\n" + q.Response + "\n")
      && (q.Success ==> b[h..] == "RESPOSTA:\n" + q.Response + "\n"
                                  + "(Processado em " + f.roundedMillis(q.ProcessTime) + ")\n\n" + Divider)
      && (!q.Success ==> b[h..] == "ERRO: " + q.Error + "\n\n" + Divider)
      && |b| >= 52 && b[|b| - 52..] == Divider
  {
    var b, h := ExportBlock(q, f), BlockHeading(q, f);
    assert b == h + BlockOutcome(q, f) + Divider;
    assert |Divider| == 52;
    if q.Success {
      var o := BlockOutcome(q, f);
      assert o[..11 + |q.Response|] == "RESPOSTA:\n" + q.Response + "\n";
    }
  }

  /** The transcript of two histories one after the other is the transcript
      of the first followed by that of the second: one block per question,
      in order. */
  lemma ExportBodyAppend(a: seq<Question>, b: seq<Question>, f: Formats)
    ensures ExportBody(a + b, f) == ExportBody(a, f) + ExportBody(b, f)
  {
    FlattenAppend(a, b, q => ExportBlock(q, f));
  }

  /** A one-question history exports exactly that question's block. */
  lemma ExportBodySingle(q: Question, f: Formats)
    ensures ExportBody([q], f) == ExportBlock(q, f)
  {
    var g := (q': Question) => ExportBlock(q', f);
    assert [q][..0] == [];
    assert Flatten([q], g) == Flatten([], g) + g(q);
  }

  /** The lines ExportHistory writes for one question, in order. */
  method WriteBlock(q: Question, f: Formats) returns (block: string)
    ensures block == ExportBlock(q, f)
  {
    block := "PERGUNTA " + IntToDecimal(q.ID) + " [" + f.clock(q.Timestamp) + "]:\n";
    block := block + q.Text + "\n\n";
    assert block == BlockHeading(q, f);
    if q.Success {
      block := block + "RESPOSTA:\n";
      block := block + q.Response + "\n";
      assert block == BlockHeading(q, f) + ("RESPOSTA:\n" + q.Response + "\n");
      block := block + "(Processado em " + f.roundedMillis(q.ProcessTime) + ")\n\n";
    } else {
      block := block + "ERRO: " + q.Error + "\n\n";
    }
    assert block == BlockHeading(q, f) + BlockOutcome(q, f);
    block := block + Repeat('-', 50) + "\n\n";
  }

  /** A session: the model it talks to, when it began, the questions asked
      so far and whether earlier questions are sent along as context. */
  class ChatSession {
    var ModelID: string
    var ModelName: string
    var StartTime: Time
    var Questions: seq<Question>
    var ContextEnabled: bool

    /** IDs are 1..N in position order. */
    ghost predicate Valid()
      reads this
    {
      IdsArePositions(Questions)
    }

    /** NewChatSession: no questions yet, context enabled. */
    constructor (modelId: string, modelName: string, now: Time)
      ensures Valid()
      ensures ModelID == modelId && ModelName == modelName && StartTime == now
      ensures Questions == [] && ContextEnabled
    {
      ModelID, ModelName, StartTime := modelId, modelName, now;
      Questions := [];
      ContextEnabled := true;
    }

    /** Appends one record numbered one past the current length. */
    method AddQuestion(text: string, response: string, processTime: Duration,
                       success: bool, errorMsg: string, now: Time)
      requires Valid()
      modifies this`Questions
      ensures Valid()
      ensures Questions == old(Questions)
        + [Question(|old(Questions)| + 1, text, response, now, processTime, success, errorMsg)]
    {
      var question := Question(|Questions| + 1, text, response, now, processTime, success, errorMsg);
      Questions := Questions + [question];
    }

    /** Counts the successes and sums every processing time in one pass;
        `now` stands for the clock read by time.Since. */
    method GetStats(now: Time) returns (stats: SessionStats)
      ensures stats == StatsOf(Questions, ModelName, now - StartTime)
      ensures stats.TotalQuestions == |Questions|
      ensures 0 <= stats.SuccessfulQuestions <= stats.TotalQuestions
      ensures stats.FailedQuestions == stats.TotalQuestions - stats.SuccessfulQuestions
      ensures stats.SuccessfulQuestions == 0 ==> stats.AverageProcessTime == 0
    {
      var totalQuestions := |Questions|;
      var successfulQuestions := 0;
      var totalProcessTime: Duration := 0;
      var i := 0;
      while i < |Questions|
        invariant 0 <= i <= |Questions|
        invariant successfulQuestions == SuccessCount(Questions[..i])
        invariant totalProcessTime == TotalProcessTime(Questions[..i])
      {
        var q := Questions[i];
        PrefixStep(Questions, i);
        if q.Success {
          successfulQuestions := successfulQuestions + 1;
        }
        totalProcessTime := totalProcessTime + q.ProcessTime;
        i := i + 1;
      }
      PrefixWhole(Questions);
      StatsConsistent(Questions, ModelName, now - StartTime);
      stats := SessionStats(
        totalQuestions, successfulQuestions, totalQuestions - successfulQuestions,
        now - StartTime, CalculateAverageTime(totalProcessTime, successfulQuestions), ModelName);
    }

    /** The last n questions; a negative n with a non-empty history makes
        the slice panic, so it is excluded. */
    function GetLastQuestions(n: int): (r: seq<Question>)
      reads this
      requires n >= 0 || |Questions| == 0
      ensures |Questions| == 0 ==> r == []
      ensures n >= 0 ==> r == LastN(Questions, n)
      ensures |r| == Min(n, |Questions|) || |Questions| == 0
      ensures Questions == Questions[..|Questions| - |r|] + r
    {
      if |Questions| == 0 then []
      else
        var start := |Questions| - n;
        Questions[(if start < 0 then 0 else start)..]
    }

    /** Writes the header, then each question's block in order. */
    method ExportHistory(f: Formats) returns (text: string)
      ensures text == ExportText(StartTime, ModelName, Questions, f)
    {
      text := "=== SESSÃO DE CHAT - " + f.dateTime(StartTime) + " ===\n";
      text := text + "Modelo: " + ModelName + "\n";
      text := text + "Total de perguntas: " + IntToDecimal(|Questions|) + "\n\n";
      ghost var header := ExportHeader(StartTime, ModelName, |Questions|, f);
      assert text == header;
      assert Questions[..0] == [];
      var i := 0;
      while i < |Questions|
        invariant 0 <= i <= |Questions|
        invariant text == header + ExportBody(Questions[..i], f)
      {
        var q := Questions[i];
        var block := WriteBlock(q, f);
        assert ExportBody(Questions[..i + 1], f) == ExportBody(Questions[..i], f) + block by {
          ExportBodyAppend(Questions[..i], [q], f);
          ExportBodySingle(q, f);
          PrefixStep(Questions, i);
        }
        AppendAssociative(header, ExportBody(Questions[..i], f), block);
        text := text + block;
        i := i + 1;
      }
      PrefixWhole(Questions);
    }

    method ToggleContext()
      modifies this`ContextEnabled
      ensures ContextEnabled == !old(ContextEnabled)
    {
      ContextEnabled := !ContextEnabled;
    }

    method SetContext(enabled: bool)
      modifies this`ContextEnabled
      ensures ContextEnabled == enabled
    {
      ContextEnabled := enabled;
    }

    function IsContextEnabled(): (r: bool)
      reads this
      ensures r == ContextEnabled
    {
      ContextEnabled
    }

    /** The status line tells the two states apart. */
    function GetContextStatus(): (r: string)
      reads this
      ensures r == ContextOnStatus <==> ContextEnabled
      ensures r == ContextOffStatus <==> !ContextEnabled
    {
      if ContextEnabled then ContextOnStatus else ContextOffStatus
    }
  }

  /** Toggling twice restores the flag and touches nothing else. */
  method ToggleTwice(s: ChatSession)
    modifies s
    ensures s.ContextEnabled == old(s.ContextEnabled)
    ensures s.Questions == old(s.Questions) && s.ModelID == old(s.ModelID)
    ensures s.ModelName == old(s.ModelName) && s.StartTime == old(s.StartTime)
  {
    s.ToggleContext();
    s.ToggleContext();
  }

  /** A session with a failed question of 5 ns and an answered one of 7 ns:
      the average divides the 12 ns of both by the one success. */
  method SessionLifecycle(t0: Time, t1: Time, t2: Time) returns (first: SessionStats, second: SessionStats)
    ensures first.TotalQuestions == 0 && first.AverageProcessTime == 0
    ensures second.TotalQuestions == 2 && second.SuccessfulQuestions == 1 && second.FailedQuestions == 1
    ensures second.AverageProcessTime == 12
  {
    var s := new ChatSession("", "", t0);
    first := s.GetStats(t0);
    s.AddQuestion("", "", 5, false, "", t1);
    s.AddQuestion("", "", 7, true, "", t2);
    ghost var qs := s.Questions;
    second := s.GetStats(t2);
    assert SuccessCount(qs) == 1 && TotalProcessTime(qs) == 12 by {
      assert qs[..1] == [qs[0]];
      assert [qs[0]][..0] == [];
    }
  }
}
