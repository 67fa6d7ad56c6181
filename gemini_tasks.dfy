/** app/tasks/gemini_tasks.py: the background job that answers one message.
    The AI service is an input: `reply` is what it returned (None for a null
    answer) and `raised` says it threw. */
module GeminiTasks {
  import opened Common
  import opened Models
  import opened Seqs
  import opened Db

  /** Python truthiness of the reply: None and "" are falsy. */
  predicate Truthy(reply: Option<string>)
  {
    reply.Some? && reply.value != ""
  }

  /** The first commit: the message is marked "processing" before the AI
      service is called. */
  function BeginProcessing(s: State, k: nat): (r: State)
    requires k < |s.messages|
    ensures r == s.(messages := r.messages) && |r.messages| == |s.messages|
    ensures r.messages[k].processingStatus == "processing"
    ensures r.messages[k].(processingStatus := s.messages[k].processingStatus) == s.messages[k]
    ensures forall i :: 0 <= i < |s.messages| && i != k ==> r.messages[i] == s.messages[i]
  {
    s.(messages := s.messages[k := s.messages[k].(processingStatus := StatusProcessing)])
  }

  /** The second commit, from the outcome of the call. */
  function Finish(m: Message, reply: Option<string>, raised: bool): (r: Message)
    ensures r.processingStatus == (if !raised && Truthy(reply) then "completed" else "failed")
    ensures r.geminiResponse == (if !raised && Truthy(reply) then reply else m.geminiResponse)
    ensures r.(processingStatus := m.processingStatus, geminiResponse := m.geminiResponse) == m
  {
    if raised then m.(processingStatus := StatusFailed)
    else if Truthy(reply) then m.(geminiResponse := reply, processingStatus := StatusCompleted)
    else m.(processingStatus := StatusFailed)
  }

  /** `process_gemini_message`: nothing for an unknown id; otherwise
      "processing", then the outcome. No guard looks at the current status. */
  function ProcessMessage(s: State, id: int, reply: Option<string>, raised: bool): (r: State)
    ensures MessageIndex(s.messages, id).None? ==> r == s
    ensures MessageIndex(s.messages, id).Some? ==>
      var k := MessageIndex(s.messages, id).value;
      var mid := BeginProcessing(s, k);
      r == mid.(messages := mid.messages[k := Finish(mid.messages[k], reply, raised)])
  {
    match MessageIndex(s.messages, id)
    case None => s
    case Some(k) =>
      var mid := BeginProcessing(s, k);
      mid.(messages := mid.messages[k := Finish(mid.messages[k], reply, raised)])
  }

  /** The job ends in "completed" or "failed", touches one message only,
      and within it only the status and the reply. */
  lemma ProcessMessageOutcome(s: State, id: int, reply: Option<string>, raised: bool)
    requires MessageIndex(s.messages, id).Some?
    ensures var k := MessageIndex(s.messages, id).value;
      var r := ProcessMessage(s, id, reply, raised);
      && r == s.(messages := r.messages) && |r.messages| == |s.messages|
      && (forall i :: 0 <= i < |s.messages| && i != k ==> r.messages[i] == s.messages[i])
      && r.messages[k].id == id
      && (r.messages[k].processingStatus == "completed" <==> !raised && Truthy(reply))
      && (r.messages[k].processingStatus == "completed" || r.messages[k].processingStatus == "failed")
      && r.messages[k].(processingStatus := s.messages[k].processingStatus,
                        geminiResponse := s.messages[k].geminiResponse) == s.messages[k]
      && (r.messages[k].processingStatus == "failed" ==> r.messages[k].geminiResponse == s.messages[k].geminiResponse)
  {
  }

  /** Re-running the job for the same id overwrites the earlier outcome:
      the status is the second run's, and a successful second run leaves
      the state as if the first had never happened. */
  lemma RerunOverwrites(s: State, id: int, r1: Option<string>, e1: bool, r2: Option<string>, e2: bool)
    ensures var once := ProcessMessage(s, id, r2, e2);
      var twice := ProcessMessage(ProcessMessage(s, id, r1, e1), id, r2, e2);
      && |twice.messages| == |once.messages|
      && (forall i :: 0 <= i < |once.messages| ==> twice.messages[i].processingStatus == once.messages[i].processingStatus)
      && (!e2 && Truthy(r2) ==> twice == once)
  {
    match MessageIndex(s.messages, id)
    case None =>
    case Some(k) =>
      var s1 := ProcessMessage(s, id, r1, e1);
      FirstIndexAt(s1.messages, (m: Message) => m.id == id, k);
  }

  /** The job keeps every room's count equal to its number of messages. */
  lemma ProcessMessageKeepsValid(s: State, id: int, reply: Option<string>, raised: bool)
    requires Valid(s)
    ensures Valid(ProcessMessage(s, id, reply, raised))
  {
    match MessageIndex(s.messages, id)
    case None =>
    case Some(k) =>
      var r := ProcessMessage(s, id, reply, raised);
      assert r.messages == s.messages[k := r.messages[k]];
      forall i | 0 <= i < |s.chatrooms|
        ensures s.chatrooms[i].messageCount == |MessagesOf(r.messages, s.chatrooms[i].id)|
      {
        MessagesOfUpdate(s.messages, k, r.messages[k], s.chatrooms[i].id);
      }
  }

  /** The background queue, first in first out: the oldest queued id is
      taken off and processed. */
  function RunNext(s: State, reply: Option<string>, raised: bool): (r: State)
    ensures s.queue == [] ==> r == s
    ensures s.queue != [] ==> r == ProcessMessage(s.(queue := s.queue[1..]), s.queue[0], reply, raised)
  {
    if s.queue == [] then s
    else ProcessMessage(s.(queue := s.queue[1..]), s.queue[0], reply, raised)
  }

  lemma RunNextKeepsValid(s: State, reply: Option<string>, raised: bool)
    requires Valid(s)
    ensures Valid(RunNext(s, reply, raised))
  {
    if s.queue != [] {
      ProcessMessageKeepsValid(s.(queue := s.queue[1..]), s.queue[0], reply, raised);
    }
  }
}
