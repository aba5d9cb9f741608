/** Benchmark runs that crash and resume.

    One model runs the cases of all suites in order and writes one file per
    case; a resumed run reads the files that are there.  Cases are numbered over
    all suites, as their file names are. */
module Bench {
  import opened Outcomes

  datatype Message = Message(role: string, content: string)

  type Messages = seq<Message>

  datatype ContextMode = Isolated | Preserve

  datatype Case = Case(suiteId: string, messages: Messages, mode: ContextMode, group: string)

  datatype Status = Success | Error

  /** A stored case; `content` is the provider's answer. */
  datatype Record = Record(status: Status, messages: Messages, content: Option<string>)

  type Conversations = map<(string, string), Messages>

  /** The case files of one model, by case number. */
  type Files = map<nat, Record>

  function FirstSystem(ms: Messages): Option<Message> {
    if ms == [] then None else if ms[0].role == "system" then Some(ms[0]) else FirstSystem(ms[1..])
  }

  /** The messages of a request: what the conversation holds, then the case's
      own, without a system message that the conversation begins with. */
  function CaseMessages(c: Case, conversations: Conversations): Messages {
    var key := (c.suiteId, c.group);
    if c.mode == Isolated then c.messages
    else
      var prior := if key in conversations then conversations[key] else [];
      var current :=
        if prior != [] && c.messages != [] && c.messages[0].role == "system" && FirstSystem(prior) == Some(c.messages[0])
        then c.messages[1..] else c.messages;
      prior + current
  }

  /** A request begins with the whole conversation and asks every message of the
      case; the one it may leave out is the conversation's system message. */
  lemma RequestsAreComplete(c: Case, conversations: Conversations)
    ensures var prior := if (c.suiteId, c.group) in conversations then conversations[(c.suiteId, c.group)] else [];
            var request := CaseMessages(c, conversations);
            && (c.mode == Isolated ==> request == c.messages)
            && (c.mode == Preserve ==> prior <= request)
            && (forall m | m in c.messages :: m in request)
  {
    var prior := if (c.suiteId, c.group) in conversations then conversations[(c.suiteId, c.group)] else [];
    if FirstSystem(prior).Some? {
      FirstSystemIsIn(prior);
    }
    forall m | m in c.messages
      ensures m in CaseMessages(c, conversations)
    {
      var k :| 0 <= k < |c.messages| && c.messages[k] == m;
      if CaseMessages(c, conversations) == prior + c.messages[1..] && k > 0 {
        assert c.messages[1..][k - 1] == m;
      }
    }
  }

  lemma {:induction false} FirstSystemIsIn(ms: Messages)
    requires FirstSystem(ms).Some?
    ensures FirstSystem(ms).value in ms
  {
    if ms[0].role != "system" {
      FirstSystemIsIn(ms[1..]);
    }
  }

  function RestoreConversation(conversations: Conversations, c: Case, r: Record): Conversations {
    if c.mode != Preserve || r.status != Success || r.content.None? then conversations
    else conversations[(c.suiteId, c.group) := r.messages + [Message("assistant", r.content.value)]]
  }

  function ResultOf(messages: Messages, answer: Option<string>): Record {
    Record(if answer.Some? then Success else Error, messages, answer)
  }

  /** The answer of the first attempt that does not raise. */
  function FirstAnswer(attempts: seq<Option<string>>): (answer: Option<string>)
    ensures answer.None? <==> forall k | 0 <= k < |attempts| :: attempts[k].None?
  {
    if attempts == [] then None else if attempts[0].Some? then attempts[0] else FirstAnswer(attempts[1..])
  }

  /** `_execute_case`: tries once and then up to `retries` times more. */
  method ExecuteCase(messages: Messages, attempts: seq<Option<string>>, retries: nat) returns (r: Record, used: nat)
    requires |attempts| == retries + 1
    ensures r == ResultOf(messages, FirstAnswer(attempts))
    ensures r.messages == messages && (r.status == Success <==> r.content.Some?)
    ensures r.content.None? <==> forall k | 0 <= k < |attempts| :: attempts[k].None?
    ensures 1 <= used <= retries + 1
    ensures r.status == Success ==> attempts[used - 1] == r.content
    ensures forall k | 0 <= k < used - 1 :: attempts[k].None?
    ensures r.status == Error ==> used == retries + 1
  {
    used := 0;
    while used < retries + 1
      invariant 0 <= used <= retries + 1
      invariant FirstAnswer(attempts[used..]) == FirstAnswer(attempts)
      invariant forall k | 0 <= k < used :: attempts[k].None?
    {
      var answer := attempts[used];
      used := used + 1;
      if answer.Some? {
        return ResultOf(messages, answer), used;
      }
    }
    return Record(Error, messages, None), used;
  }

  /** A provider in one run: its answer to the request of a numbered case. */
  type Provider = (nat, Messages) -> Option<string>

  predicate Kept(files: Files, k: nat, rerunErrors: bool) {
    k in files && !(rerunErrors && files[k].status == Error)
  }

  /** The files after a run that stops before its write number `budget`. */
  function RunCases(
    files: Files, cases: seq<Case>, k: nat, conversations: Conversations,
    provider: Provider, rerunErrors: bool, budget: nat): Files
    decreases |cases| - k
  {
    if k >= |cases| then files
    else if Kept(files, k, rerunErrors) then
      RunCases(files, cases, k + 1, RestoreConversation(conversations, cases[k], files[k]), provider, rerunErrors, budget)
    else if budget == 0 then files
    else
      var messages := CaseMessages(cases[k], conversations);
      var record := ResultOf(messages, provider(k, messages));
      RunCases(files[k := record], cases, k + 1, RestoreConversation(conversations, cases[k], record),
               provider, rerunErrors, budget - 1)
  }

  /** A model's directory, and the run that fills it. */
  class ModelRun {
    var files: Files
    var writesLeft: nat

    constructor (files: Files, writesLeft: nat)
      ensures this.files == files && this.writesLeft == writesLeft
    {
      this.files, this.writesLeft := files, writesLeft;
    }

    /** `_run_model`; it ends early when no write is left. */
    method RunModel(cases: seq<Case>, provider: Provider, rerunErrors: bool) returns (finished: bool)
      modifies this
      ensures files == RunCases(old(files), cases, 0, map[], provider, rerunErrors, old(writesLeft))
      ensures finished && !rerunErrors ==> forall k | 0 <= k < |cases| :: k in files
    {
      var conversations: Conversations := map[];
      var k := 0;
      while k < |cases|
        invariant 0 <= k <= |cases|
        invariant RunCases(files, cases, k, conversations, provider, rerunErrors, writesLeft) ==
                  RunCases(old(files), cases, 0, map[], provider, rerunErrors, old(writesLeft))
        invariant forall j | 0 <= j < k :: j in files
      {
        if Kept(files, k, rerunErrors) {
          conversations := RestoreConversation(conversations, cases[k], files[k]);
        } else {
          if writesLeft == 0 {
            return false;
          }
          var messages := CaseMessages(cases[k], conversations);
          var record := ResultOf(messages, provider(k, messages));
          files := files[k := record];
          writesLeft := writesLeft - 1;
          conversations := RestoreConversation(conversations, cases[k], record);
        }
        k := k + 1;
      }
      return true;
    }
  }

  // ----- what every history keeps

  /** The conversations that the first `n` stored cases lead to. */
  function Fold(files: Files, cases: seq<Case>, n: nat): Conversations
    requires n <= |cases| && forall k | 0 <= k < n :: k in files
  {
    if n == 0 then map[] else RestoreConversation(Fold(files, cases, n - 1), cases[n - 1], files[n - 1])
  }

  /** The stored cases are the first `n`, and the messages of each follow from
      the records stored before it. */
  ghost predicate Consistent(files: Files, cases: seq<Case>, n: nat) {
    && n <= |cases|
    && (forall k :: k in files <==> 0 <= k < n)
    && (forall k | 0 <= k < n :: Follows(files, cases, k))
  }

  /** Case `k` was asked with what the cases before it had left. */
  predicate Follows(files: Files, cases: seq<Case>, k: nat)
    requires k < |cases| && forall j | 0 <= j <= k :: j in files
  {
    files[k].messages == CaseMessages(cases[k], Fold(files, cases, k))
  }

  lemma FollowsInMore(files: Files, more: Files, cases: seq<Case>, k: nat)
    requires k < |cases| && forall j | 0 <= j <= k :: j in files && j in more && more[j] == files[j]
    requires Follows(files, cases, k)
    ensures Follows(more, cases, k)
  {
    FoldOfPrefix(files, more, cases, k);
  }

  lemma FoldNext(files: Files, cases: seq<Case>, k: nat)
    requires k < |cases| && forall j | 0 <= j <= k :: j in files
    ensures Fold(files, cases, k + 1) == RestoreConversation(Fold(files, cases, k), cases[k], files[k])
  {
  }

  lemma {:induction false} FoldOfPrefix(files: Files, more: Files, cases: seq<Case>, n: nat)
    requires n <= |cases| && forall k | 0 <= k < n :: k in files && k in more && more[k] == files[k]
    ensures Fold(files, cases, n) == Fold(more, cases, n)
  {
    if n > 0 {
      FoldOfPrefix(files, more, cases, n - 1);
    }
  }

  lemma AddCase(files: Files, cases: seq<Case>, n: nat, record: Record)
    requires Consistent(files, cases, n) && n < |cases|
    requires record.messages == CaseMessages(cases[n], Fold(files, cases, n))
    ensures Consistent(files[n := record], cases, n + 1)
  {
    var more := files[n := record];
    forall k | 0 <= k < n + 1
      ensures Follows(more, cases, k)
    {
      if k < n {
        FollowsInMore(files, more, cases, k);
      } else {
        FoldOfPrefix(files, more, cases, n);
      }
    }
  }

  /** One step of a run beyond the stored cases. */
  lemma NewCase(files: Files, cases: seq<Case>, n: nat, record: Record)
    requires Consistent(files, cases, n) && n < |cases|
    requires record.messages == CaseMessages(cases[n], Fold(files, cases, n))
    ensures Consistent(files[n := record], cases, n + 1)
    ensures Fold(files[n := record], cases, n + 1) == RestoreConversation(Fold(files, cases, n), cases[n], record)
  {
    AddCase(files, cases, n, record);
    FoldOfPrefix(files, files[n := record], cases, n);
    FoldNext(files[n := record], cases, n);
  }

  // ----- what the stored requests are

  /** `m` is the first system message of `ms`. */
  ghost predicate OpensWith(ms: Messages, m: Message) {
    exists j | 0 <= j < |ms| :: ms[j] == m && m.role == "system" && forall i | 0 <= i < j :: ms[i].role != "system"
  }

  lemma {:induction false} FirstSystemOpens(ms: Messages, m: Message)
    ensures FirstSystem(ms) == Some(m) <==> OpensWith(ms, m)
  {
    if ms == [] {
    } else if ms[0].role == "system" {
      assert ms[0] == m ==> OpensWith(ms, m);
    } else {
      var rest := ms[1..];
      FirstSystemOpens(rest, m);
      if OpensWith(rest, m) {
        var j :| 0 <= j < |rest| && rest[j] == m && m.role == "system" && forall i | 0 <= i < j :: rest[i].role != "system";
        assert ms[j + 1] == m && forall i | 0 <= i < j + 1 :: ms[i].role != "system" by {
          forall i | 0 <= i < j + 1 ensures ms[i].role != "system" {
            assert i > 0 ==> rest[i - 1] == ms[i];
          }
        }
      }
      if OpensWith(ms, m) {
        var j :| 0 <= j < |ms| && ms[j] == m && m.role == "system" && forall i | 0 <= i < j :: ms[i].role != "system";
        assert rest[j - 1] == m && forall i | 0 <= i < j - 1 :: rest[i].role != "system" by {
          forall i | 0 <= i < j - 1 ensures rest[i].role != "system" {
            assert rest[i] == ms[i + 1];
          }
        }
      }
    }
  }

  /** `request` is what has been said and then the case's own messages, without
      its leading system message where the conversation has opened with it. */
  ghost predicate Continues(request: Messages, said: Messages, asked: Messages) {
    if asked != [] && OpensWith(said, asked[0]) then request == said + asked[1..] else request == said + asked
  }

  lemma RequestContinues(c: Case, conversations: Conversations)
    requires c.mode == Preserve
    ensures Continues(CaseMessages(c, conversations), Prior(conversations, c), c.messages)
  {
    if c.messages != [] {
      FirstSystemOpens(Prior(conversations, c), c.messages[0]);
    }
  }

  /** No case between `i` and `k` adds to the conversation of `k`. */
  predicate Silent(files: Files, cases: seq<Case>, i: nat, k: nat)
    requires k < |cases| && forall m | 0 <= m < k :: m in files
  {
    forall m | i <= m < k :: SameConversation(cases[m], cases[k]) ==> files[m].status == Error
  }

  /** After a stored success, the next request of its conversation is what that
      case was asked, the stored answer as the assistant's, and then the case. */
  lemma AnswersAreCarriedOn(files: Files, cases: seq<Case>, n: nat, i: nat, k: nat)
    requires Consistent(files, cases, n) && i < k < n && SameConversation(cases[i], cases[k])
    requires files[i].status == Success && files[i].content.Some? && Silent(files, cases, i + 1, k)
    ensures Continues(
              files[k].messages, files[i].messages + [Message("assistant", files[i].content.value)], cases[k].messages)
  {
    assert Follows(files, cases, k);
    FoldKeeps(files, cases, i + 1, k, cases[k]);
    RequestContinues(cases[k], Fold(files, cases, k));
  }

  /** A case that is isolated, or before which its conversation has no success,
      is asked with its own messages. */
  lemma FreshCasesAreAskedPlainly(files: Files, cases: seq<Case>, n: nat, k: nat)
    requires Consistent(files, cases, n) && k < n
    requires cases[k].mode == Isolated || Silent(files, cases, 0, k)
    ensures files[k].messages == cases[k].messages
  {
    assert Follows(files, cases, k);
    if cases[k].mode == Preserve {
      FoldKeeps(files, cases, 0, k, cases[k]);
      assert Prior(Fold(files, cases, k), cases[k]) == [];
    }
  }

  // ----- errors that are rerun

  predicate SameConversation(c: Case, d: Case) {
    c.mode == Preserve && d.mode == Preserve && c.suiteId == d.suiteId && c.group == d.group
  }

  /** Case `j` is stored as an error and case `k` of its conversation is stored
      after it.  The files show this before a run. */
  predicate Stranded(files: Files, cases: seq<Case>, j: nat, k: nat) {
    && j < k < |cases| && j in files && k in files
    && files[j].status == Error && SameConversation(cases[j], cases[k])
  }

  ghost predicate NoneStranded(files: Files, cases: seq<Case>) {
    forall j: nat, k: nat :: !Stranded(files, cases, j, k)
  }

  function Prior(conversations: Conversations, c: Case): Messages {
    if (c.suiteId, c.group) in conversations then conversations[(c.suiteId, c.group)] else []
  }

  /** Storing something else for an error that is stored before no case of its
      conversation changes what no other stored case follows from. */
  lemma {:induction false} FoldElsewhere(files: Files, cases: seq<Case>, j: nat, r: Record, n: nat, c: Case)
    requires n <= |cases| && j < |cases| && forall k | 0 <= k < n :: k in files
    requires n > j ==> files[j].status == Error
    requires !SameConversation(cases[j], c) || n <= j
    requires c.mode == Preserve
    ensures Prior(Fold(files[j := r], cases, n), c) == Prior(Fold(files, cases, n), c)
  {
    if n > 0 {
      FoldElsewhere(files, cases, j, r, n - 1, c);
    }
  }

  lemma ReplaceError(files: Files, cases: seq<Case>, n: nat, j: nat, r: Record)
    requires Consistent(files, cases, n) && j < n && files[j].status == Error
    requires forall k: nat :: !Stranded(files, cases, j, k)
    requires r.messages == CaseMessages(cases[j], Fold(files, cases, j))
    ensures Consistent(files[j := r], cases, n)
  {
    var more := files[j := r];
    forall k | 0 <= k < n
      ensures Follows(more, cases, k)
    {
      assert Follows(files, cases, k) && !Stranded(files, cases, j, k);
      if cases[k].mode == Preserve {
        FoldElsewhere(files, cases, j, r, k, cases[k]);
      }
    }
  }

  /** A run whose reruns meet no stranded error keeps the stored cases a prefix
      and the messages of each the fold of the records before it. */
  lemma {:induction false} RunKeepsConsistent(
    files: Files, cases: seq<Case>, n: nat, k: nat, conversations: Conversations,
    provider: Provider, rerunErrors: bool, budget: nat) returns (m: nat)
    requires Consistent(files, cases, n) && k <= n
    requires conversations == Fold(files, cases, k)
    requires rerunErrors ==> forall i: nat, j: nat | k <= i :: !Stranded(files, cases, i, j)
    ensures Consistent(RunCases(files, cases, k, conversations, provider, rerunErrors, budget), cases, m) && n <= m
    decreases |cases| - k
  {
    m := n;
    if k < |cases| {
      if Kept(files, k, rerunErrors) {
        FoldNext(files, cases, k);
        m := RunKeepsConsistent(
          files, cases, n, k + 1, RestoreConversation(conversations, cases[k], files[k]), provider, rerunErrors, budget);
      } else if budget > 0 {
        var messages := CaseMessages(cases[k], conversations);
        var record := ResultOf(messages, provider(k, messages));
        var more := files[k := record];
        if k < n {
          ReplaceError(files, cases, n, k, record);
        } else {
          NewCase(files, cases, n, record);
        }
        FoldOfPrefix(files, more, cases, k);
        FoldNext(more, cases, k);
        forall i: nat, j: nat | k + 1 <= i && rerunErrors
          ensures !Stranded(more, cases, i, j)
        {
          assert !Stranded(files, cases, i, j);
        }
        m := RunKeepsConsistent(
          more, cases, if k < n then n else n + 1, k + 1, RestoreConversation(conversations, cases[k], record),
          provider, rerunErrors, budget - 1);
      }
    }
  }

  /** Two versions of the files that differ in error records only. */
  ghost predicate DifferInErrors(files: Files, more: Files, n: nat) {
    forall k | 0 <= k < n ::
      && k in files && k in more
      && (files[k] == more[k] ||
          (files[k].status == Error && more[k].status == Error && files[k].messages == more[k].messages))
  }

  lemma {:induction false} FoldSkipsErrors(files: Files, more: Files, cases: seq<Case>, n: nat)
    requires n <= |cases| && DifferInErrors(files, more, n)
    ensures Fold(files, cases, n) == Fold(more, cases, n)
  {
    if n > 0 {
      FoldSkipsErrors(files, more, cases, n - 1);
    }
  }

  function ErrorsFrom(files: Files, k: nat, n: nat): nat
    decreases n - k
  {
    if k >= n then 0 else (if k in files && files[k].status == Error then 1 else 0) + ErrorsFrom(files, k + 1, n)
  }

  /** A run without writes changes nothing. */
  lemma {:induction false} NoWriteLeft(
    files: Files, cases: seq<Case>, k: nat, conversations: Conversations, provider: Provider, rerunErrors: bool)
    ensures RunCases(files, cases, k, conversations, provider, rerunErrors, 0) == files
    decreases |cases| - k
  {
    if k < |cases| && Kept(files, k, rerunErrors) {
      NoWriteLeft(files, cases, k + 1, RestoreConversation(conversations, cases[k], files[k]), provider, rerunErrors);
    }
  }

  /** Answers one case and no other. */
  function AnswersOnly(j: nat): Provider {
    (i, m) => if i == j then Some("") else None
  }

  /** A run that reruns the errors up to `j`, where its first answer comes, and
      then stops, replaces that one record and otherwise only errors by errors. */
  lemma {:induction false} RunUpTo(files: Files, cases: seq<Case>, n: nat, k: nat, j: nat) returns (before: Files)
    requires Consistent(files, cases, n) && k <= j < n && files[j].status == Error
    ensures DifferInErrors(files, before, n) && Consistent(before, cases, n) && before.Keys == files.Keys
    ensures forall i | j < i < n :: before[i] == files[i]
    ensures RunCases(files, cases, k, Fold(files, cases, k), AnswersOnly(j), true, ErrorsFrom(files, k, j + 1)) ==
            before[j := ResultOf(files[j].messages, Some(""))]
    decreases j - k
  {
    var conversations := Fold(files, cases, k);
    var provider := AnswersOnly(j);
    assert Follows(files, cases, k);
    FoldNext(files, cases, k);
    if k == j {
      before := files;
      var record := ResultOf(files[j].messages, Some(""));
      assert ErrorsFrom(files, j + 1, j + 1) == 0 && ErrorsFrom(files, j, j + 1) == 1;
      NoWriteLeft(files[j := record], cases, j + 1, RestoreConversation(conversations, cases[j], record), provider, true);
    } else if files[k].status == Success {
      before := RunUpTo(files, cases, n, k + 1, j);
    } else {
      var more := FailAgain(files, cases, n, k, j);
      before := RunUpTo(more, cases, n, k + 1, j);
    }
  }

  /** One step of such a run: an error is run again and fails again. */
  lemma FailAgain(files: Files, cases: seq<Case>, n: nat, k: nat, j: nat) returns (more: Files)
    requires Consistent(files, cases, n) && k < j < n && files[k].status == Error
    ensures DifferInErrors(files, more, n) && Consistent(more, cases, n) && more.Keys == files.Keys
    ensures forall i | k < i < n :: more[i] == files[i]
    ensures RunCases(files, cases, k, Fold(files, cases, k), AnswersOnly(j), true, ErrorsFrom(files, k, j + 1)) ==
            RunCases(more, cases, k + 1, Fold(more, cases, k + 1), AnswersOnly(j), true, ErrorsFrom(more, k + 1, j + 1))
  {
    var record := ResultOf(files[k].messages, None);
    more := files[k := record];
    assert Follows(files, cases, k);
    SwapError(files, cases, n, k, record);
    FoldNext(more, cases, k);
    FoldSkipsErrors(files, more, cases, k);
    ErrorsAgree(files, more, k + 1, j + 1);
  }

  lemma {:induction false} ErrorsAgree(files: Files, more: Files, k: nat, n: nat)
    requires forall i | k <= i < n :: (i in files <==> i in more) && (i in files ==> files[i] == more[i])
    ensures ErrorsFrom(files, k, n) == ErrorsFrom(more, k, n)
    decreases n - k
  {
    if k < n {
      ErrorsAgree(files, more, k + 1, n);
    }
  }

  lemma SwapError(files: Files, cases: seq<Case>, n: nat, k: nat, r: Record)
    requires Consistent(files, cases, n) && k < n
    requires files[k].status == Error && r.status == Error && r.messages == files[k].messages
    ensures Consistent(files[k := r], cases, n) && DifferInErrors(files, files[k := r], n)
  {
    var more := files[k := r];
    forall i | 0 <= i < n
      ensures Follows(more, cases, i)
    {
      assert Follows(files, cases, i);
      FoldSkipsErrors(files, more, cases, i);
    }
  }

  /** A conversation that went on is asked with other messages, even where the
      case then leaves out its system message. */
  lemma LongerConversationsDiffer(c: Case, d: Case, a: Conversations, b: Conversations, answer: Message)
    requires SameConversation(c, d) && answer.role == "assistant"
    requires Prior(b, d) == CaseMessages(c, a) + [answer]
    ensures CaseMessages(d, b) != CaseMessages(d, a)
  {
    var prior := Prior(a, c);
    var short, long := CaseMessages(d, a), CaseMessages(d, b);
    assert prior <= CaseMessages(c, a);
    if |short| == |long| {
      assert CaseMessages(c, a) == prior;
      assert long == prior + [answer] + d.messages[1..] && short == prior + d.messages;
      assert long[|prior|] == answer && short[|prior|] == d.messages[0];
      assert "assistant"[0] != "system"[0];
    }
  }

  /** The conversation of `c` stays as it is over cases of other conversations. */
  lemma {:induction false} FoldKeeps(files: Files, cases: seq<Case>, i: nat, k: nat, c: Case)
    requires i <= k <= |cases| && (forall m | 0 <= m < k :: m in files) && c.mode == Preserve
    requires forall m | i <= m < k :: !SameConversation(cases[m], c) || files[m].status == Error
    ensures Prior(Fold(files, cases, k), c) == Prior(Fold(files, cases, i), c)
  {
    if i < k {
      FoldKeeps(files, cases, i, k - 1, c);
    }
  }

  /** A stranded error can be rerun so that a case stored after it has messages
      that miss the new answer. */
  lemma StrandedErrorBreaks(files: Files, cases: seq<Case>, n: nat, j: nat, k: nat)
    returns (provider: Provider, budget: nat, next: nat)
    requires Consistent(files, cases, n) && Stranded(files, cases, j, k)
    ensures var second := RunCases(files, cases, 0, map[], provider, true, budget);
            next < n && second.Keys == files.Keys && !Follows(second, cases, next)
  {
    next := FirstStranded(files, cases, j, k);
    provider, budget := AnswersOnly(j), ErrorsFrom(files, 0, j + 1);
    var before := RunUpTo(files, cases, n, 0, j);
    var record := ResultOf(files[j].messages, Some(""));
    var second := before[j := record];
    assert second == RunCases(files, cases, 0, map[], provider, true, budget);
    var d := cases[next];
    assert Follows(files, cases, j) && Follows(files, cases, next);
    FoldSkipsErrors(files, before, cases, j);
    FoldOfPrefix(before, second, cases, j);
    FoldNext(second, cases, j);
    FoldKeeps(second, cases, j + 1, next, d);
    FoldKeeps(files, cases, j, next, d);
    LongerConversationsDiffer(
      cases[j], d, Fold(files, cases, j), Fold(second, cases, next), Message("assistant", ""));
  }

  /** The first case of the conversation after the stranded error. */
  lemma {:induction false} FirstStranded(files: Files, cases: seq<Case>, j: nat, k: nat) returns (next: nat)
    requires Stranded(files, cases, j, k) && forall i | 0 <= i <= k :: i in files
    ensures Stranded(files, cases, j, next) && next <= k
    ensures forall i | j < i < next :: !SameConversation(cases[i], cases[next])
    decreases k
  {
    next := k;
    if i :| j < i < k && SameConversation(cases[i], cases[k]) {
      next := FirstStranded(files, cases, j, i);
    }
  }

  /** Every stored case follows from the records before it. */
  ghost predicate AllFollow(files: Files, cases: seq<Case>) {
    exists n :: Consistent(files, cases, n)
  }

  /** Rerunning errors keeps the messages of every stored case the fold of the
      records before it, whatever the provider answers and wherever the run
      stops, exactly if no error is stored before a case of its conversation. */
  lemma RerunsKeepTheFoldIffNoneStranded(files: Files, cases: seq<Case>, n: nat)
    requires Consistent(files, cases, n)
    ensures (forall provider: Provider, budget: nat ::
               AllFollow(RunCases(files, cases, 0, map[], provider, true, budget), cases))
            <==> NoneStranded(files, cases)
  {
    if NoneStranded(files, cases) {
      forall provider: Provider, budget: nat
        ensures AllFollow(RunCases(files, cases, 0, map[], provider, true, budget), cases)
      {
        var m := RunKeepsConsistent(files, cases, n, 0, map[], provider, true, budget);
      }
    } else {
      var j: nat, k: nat :| Stranded(files, cases, j, k);
      var provider, budget, next := StrandedErrorBreaks(files, cases, n, j, k);
      var second := RunCases(files, cases, 0, map[], provider, true, budget);
      assert !AllFollow(second, cases);
    }
  }

  // ----- histories of runs

  /** One start of the benchmark: how its provider answers, whether it runs
      errors again, and when it crashes. */
  datatype Session = Session(provider: Provider, rerunErrors: bool, budget: nat)

  function AfterSession(files: Files, cases: seq<Case>, s: Session): Files {
    RunCases(files, cases, 0, map[], s.provider, s.rerunErrors, s.budget)
  }

  function Sessions(files: Files, cases: seq<Case>, ss: seq<Session>): Files
    decreases ss
  {
    if ss == [] then files else Sessions(AfterSession(files, cases, ss[0]), cases, ss[1..])
  }

  /** No session reruns errors over files with a stranded one. */
  ghost predicate RerunsAreSafe(files: Files, cases: seq<Case>, ss: seq<Session>)
    decreases ss
  {
    ss == [] ||
    ((ss[0].rerunErrors ==> NoneStranded(files, cases)) && RerunsAreSafe(AfterSession(files, cases, ss[0]), cases, ss[1..]))
  }

  lemma {:induction false} SessionsKeepConsistent(files: Files, cases: seq<Case>, n: nat, ss: seq<Session>) returns (m: nat)
    requires Consistent(files, cases, n) && RerunsAreSafe(files, cases, ss)
    ensures Consistent(Sessions(files, cases, ss), cases, m)
    decreases ss
  {
    m := n;
    if ss != [] {
      m := RunKeepsConsistent(files, cases, n, 0, map[], ss[0].provider, ss[0].rerunErrors, ss[0].budget);
      m := SessionsKeepConsistent(AfterSession(files, cases, ss[0]), cases, m, ss[1..]);
    }
  }

  /** After any number of crashes and resumes, with any answers and with errors
      rerun only where none is stranded, the stored cases are a prefix of the
      case order and the messages of each are the fold of the records before it. */
  lemma StoredCasesAreConsistent(cases: seq<Case>, ss: seq<Session>)
    requires RerunsAreSafe(map[], cases, ss)
    ensures exists n :: Consistent(Sessions(map[], cases, ss), cases, n)
  {
    assert Consistent(map[], cases, 0);
    var n := SessionsKeepConsistent(map[], cases, 0, ss);
  }

  lemma {:induction false} WithoutReruns(files: Files, cases: seq<Case>, ss: seq<Session>)
    requires forall s | s in ss :: !s.rerunErrors
    ensures RerunsAreSafe(files, cases, ss)
    decreases ss
  {
    if ss != [] {
      WithoutReruns(AfterSession(files, cases, ss[0]), cases, ss[1..]);
    }
  }

  // ----- a deterministic provider

  /** The one history that a deterministic provider allows. */
  function Uninterrupted(cases: seq<Case>, provider: Provider): Files {
    RunCases(map[], cases, 0, map[], provider, false, |cases|)
  }

  ghost predicate Agrees(files: Files, cases: seq<Case>, n: nat, provider: Provider) {
    && Consistent(files, cases, n)
    && forall k | 0 <= k < n :: files[k] == ResultOf(files[k].messages, provider(k, files[k].messages))
  }

  lemma AddAnswer(files: Files, cases: seq<Case>, n: nat, provider: Provider)
    requires Agrees(files, cases, n, provider) && n < |cases|
    ensures var messages := CaseMessages(cases[n], Fold(files, cases, n));
            Agrees(files[n := ResultOf(messages, provider(n, messages))], cases, n + 1, provider)
  {
    var messages := CaseMessages(cases[n], Fold(files, cases, n));
    AddCase(files, cases, n, ResultOf(messages, provider(n, messages)));
  }

  /** Running an error again brings the same error again. */
  lemma {:induction false} RunKeepsAgreement(
    files: Files, cases: seq<Case>, n: nat, k: nat, conversations: Conversations,
    provider: Provider, rerunErrors: bool, budget: nat) returns (m: nat)
    requires Agrees(files, cases, n, provider) && k <= n
    requires conversations == Fold(files, cases, k)
    ensures Agrees(RunCases(files, cases, k, conversations, provider, rerunErrors, budget), cases, m, provider)
    ensures n <= m && (budget >= |cases| - k ==> m == |cases|)
    decreases |cases| - k
  {
    m := n;
    if k < |cases| {
      if Kept(files, k, rerunErrors) {
        FoldNext(files, cases, k);
        m := RunKeepsAgreement(
          files, cases, n, k + 1, RestoreConversation(conversations, cases[k], files[k]), provider, rerunErrors, budget);
      } else if budget > 0 {
        var messages := CaseMessages(cases[k], conversations);
        var record := ResultOf(messages, provider(k, messages));
        if k < n {
          assert Follows(files, cases, k);
          assert files[k := record] == files;
          FoldNext(files, cases, k);
        } else {
          AddAnswer(files, cases, n, provider);
          NewCase(files, cases, n, record);
        }
        m := RunKeepsAgreement(
          files[k := record], cases, if k < n then n else n + 1, k + 1,
          RestoreConversation(conversations, cases[k], record), provider, rerunErrors, budget - 1);
      }
    }
  }

  /** Agreement leaves no freedom. */
  lemma {:induction false} AgreementIsUnique(a: Files, m: nat, b: Files, n: nat, cases: seq<Case>, provider: Provider, k: nat)
    requires Agrees(a, cases, m, provider) && Agrees(b, cases, n, provider)
    requires k < m && k < n
    ensures a[k] == b[k]
  {
    forall j | 0 <= j < k
      ensures a[j] == b[j]
    {
      AgreementIsUnique(a, m, b, n, cases, provider, j);
    }
    FoldOfPrefix(a, b, cases, k);
    assert Follows(a, cases, k) && Follows(b, cases, k);
  }

  lemma {:induction false} SessionsKeepAgreement(files: Files, cases: seq<Case>, n: nat, provider: Provider, ss: seq<Session>)
    returns (m: nat)
    requires Agrees(files, cases, n, provider)
    requires forall s | s in ss :: s.provider == provider
    ensures Agrees(Sessions(files, cases, ss), cases, m, provider)
    ensures n <= m && (ss != [] && ss[|ss| - 1].budget >= |cases| ==> m == |cases|)
    decreases ss
  {
    m := n;
    if ss != [] {
      m := RunKeepsAgreement(files, cases, n, 0, map[], provider, ss[0].rerunErrors, ss[0].budget);
      m := SessionsKeepAgreement(AfterSession(files, cases, ss[0]), cases, m, provider, ss[1..]);
    }
  }

  /** With a provider that answers equal requests alike, what crashes and
      resumes have stored, with errors rerun or not, is what an uninterrupted
      run stores: the same requests, statuses and contents; all of them once a
      run was not cut. */
  lemma DeterministicRunsAgree(cases: seq<Case>, provider: Provider, ss: seq<Session>)
    requires forall s | s in ss :: s.provider == provider
    ensures var files := Sessions(map[], cases, ss);
            var full := Uninterrupted(cases, provider);
            && (forall k | k in files :: k in full && files[k] == full[k])
            && (ss != [] && ss[|ss| - 1].budget >= |cases| ==> files == full)
  {
    assert Agrees(map[], cases, 0, provider);
    var m := SessionsKeepAgreement(map[], cases, 0, provider, ss);
    var full := Uninterrupted(cases, provider);
    var n := RunKeepsAgreement(map[], cases, 0, 0, map[], provider, false, |cases|);
    var files := Sessions(map[], cases, ss);
    forall k | k in files
      ensures k in full && files[k] == full[k]
    {
      AgreementIsUnique(files, m, full, n, cases, provider, k);
    }
  }

  /** Such files come about: two cases of one conversation of which the first
      is stored as an error, and a later run that breaks the fold. */
  lemma RerunErrorsBreakTheFold(provider: Provider) returns (again: Provider, budget: nat)
    requires forall m :: provider(0, m).None? && provider(1, m) == Some("late")
    ensures var c := Case("suite", [Message("user", "ask")], Preserve, "");
            var ss := [Session(provider, false, 2), Session(again, true, budget)];
            !AllFollow(Sessions(map[], [c, c], ss), [c, c])
  {
    var c := Case("suite", [Message("user", "ask")], Preserve, "");
    var cases := [c, c];
    var none: Conversations := map[];
    var messages := CaseMessages(c, none);
    var e, l := ResultOf(messages, None), ResultOf(messages, Some("late"));
    var one: Files := map[0 := e];
    var first := one[1 := l];
    assert RestoreConversation(none, c, e) == none;
    NoWriteLeft(first, cases, 2, RestoreConversation(none, c, l), provider, false);
    assert RunCases(one, cases, 1, none, provider, false, 1) == first;
    var s := Session(provider, false, 2);
    assert AfterSession(map[], cases, s) == first;
    assert Consistent(map[], cases, 0);
    var n := RunKeepsConsistent(map[], cases, 0, 0, none, provider, false, 2);
    assert 1 in first;
    var next;
    again, budget, next := StrandedErrorBreaks(first, cases, n, 0, 1);
    var t := Session(again, true, budget);
    assert [s, t][1..] == [t] && [t][1..] == [];
    assert Sessions(map[], cases, [s, t]) == Sessions(first, cases, [t]) == AfterSession(first, cases, t);
  }
}
