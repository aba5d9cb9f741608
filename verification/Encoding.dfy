/** How long result records and adapter responses are as canonical JSON.

    Every digest is written in 71 characters and every timestamp in 20, so one
    text of that length stands for all of them. */
module Encoding {
  import opened Outcomes
  import opened Records
  import opened Canonical
  import opened ResultKeys

  const MAX_RESPONSE_BYTES := 65_536

  const TIME_TEXT := "2000-01-01T00:00:00Z"

  function HexText(): string {
    seq(64, _ => '0')
  }

  function DigestText(): string {
    "sha256:" + HexText()
  }

  /** The number of bytes of a text in UTF-8. */
  function Utf8Length(s: string): nat {
    if s == [] then 0 else CharBytes(s[0]) + Utf8Length(s[1..])
  }

  function CharBytes(c: char): nat {
    var n := c as int;
    if n < 0x80 then 1 else if n < 0x800 then 2 else if n < 0x1_0000 then 3 else 4
  }

  function OptionalDigest(d: Option<Digest>): Json {
    if d.Some? then Str(DigestText()) else Null
  }

  function OptionalText(t: Option<string>): Json {
    if t.Some? then Str(t.value) else Null
  }

  function Texts(ts: seq<string>): Json {
    List(seq(|ts|, k requires 0 <= k < |ts| => Str(ts[k])))
  }

  function DigestFields(names: seq<string>): (fs: seq<Field>)
    ensures |fs| == |names|
    ensures forall k | 0 <= k < |names| :: fs[k] == Field(names[k], Str(DigestText()))
  {
    seq(|names|, k requires 0 <= k < |names| => Field(names[k], Str(DigestText())))
  }

  function OperationText(o: Operation): string {
    match o
    case ReadOnlyProposal => "read-only-proposal"
    case WorkspaceWriteCodeTask => "workspace-write-code-task"
  }

  function OutcomeText(o: ProcessOutcome): string {
    match o
    case PassOutcome => "pass"
    case FailOutcome => "fail"
    case NotRunOutcome => "not-run"
    case UncertainOutcome => "uncertain"
  }

  function WorkspaceText(w: WorkspaceState): string {
    match w
    case Unchanged => "unchanged"
    case Changed => "changed"
    case BoundaryFailed => "boundary-failed"
    case UnknownWorkspace => "unknown"
  }

  function StageJson(t: Stage): Json {
    var outcome := match t.outcome case StagePass => "pass" case StageFail => "fail" case StageNotRun => "not-run";
    Object([Field("test_id", Str(t.testId)), Field("outcome", Str(outcome)), Field("failure_code", OptionalText(t.failureCode))])
  }

  function StagesJson(stages: seq<Stage>): Json {
    List(seq(|stages|, k requires 0 <= k < |stages| => StageJson(stages[k])))
  }

  function ReferenceJson(f: Option<Reference>): Json {
    if f.None? then Null
    else if f.value.PromptFile? then Str("prompts/" + HexText() + ".txt")
    else if f.value.ProposalFile? then Str("proposals/" + HexText() + ".txt")
    else Str("candidates/" + HexText() + ".json")
  }

  /** What acceptance found: `expected` and `observed` carry the same words. */
  function ReportText(o: Operation): string {
    match o
    case ReadOnlyProposal => "unchanged workspace"
    case WorkspaceWriteCodeTask => "authorized candidate paths and sealed validation"
  }

  function VersionText(o: Operation): string {
    match o
    case ReadOnlyProposal => "worker-lab-framework-adapter:v2"
    case WorkspaceWriteCodeTask => "worker-lab-framework-adapter:v3"
  }

  function TaskFields(r: ResultRecord): seq<Field> {
    [ Field("schema_version", Str("worker-lab-framework-result:v2")),
      Field("invocation_id", Str(r.invocationId)),
      Field("attempt_id", Str(r.attemptId)),
      Field("operation", Str(OperationText(r.operation))),
      Field("framework_contract_version", Str(VersionText(r.operation))),
      Field("runtime_profile_id", Str("terra-medium:v1")),
      Field("test_catalog_version", Str(r.catalogVersion)),
      Field("test_ids", Texts(r.testIds)),
      Field("starting_commit", Str(r.startingCommit)),
      Field("observed_head", Str(r.observedHead)),
      Field("process_outcome", Str(OutcomeText(r.processOutcome))),
      Field("process_identity", OptionalDigest(r.processIdentity)) ]
  }

  function EvidenceFields(r: ResultRecord): seq<Field> {
    [ Field("process_started_at", Str(TIME_TEXT)),
      Field("process_ended_at", Str(TIME_TEXT)),
      Field("workspace_state", Str(WorkspaceText(r.workspaceState))),
      Field("proposal_digest", OptionalDigest(r.proposalDigest)),
      Field("candidate_digest", OptionalDigest(r.candidateDigest)),
      Field("validation_stages", StagesJson(r.stages)),
      Field("first_failure_boundary", OptionalText(r.firstFailureBoundary)),
      Field("failure_code", OptionalText(r.failureCode)),
      Field("expected", Str(ReportText(r.operation))),
      Field("observed", Str(ReportText(r.operation))),
      Field("containment_outcome", Str("absence-verified")),
      Field("content_reference", ReferenceJson(r.contentReference)),
      Field("retryable", Bool(r.retryable)) ]
  }

  function PlainFields(r: ResultRecord): seq<Field> {
    TaskFields(r) + EvidenceFields(r)
  }

  function CommonFields(changedPaths: seq<string>): seq<Field> {
    [Field("changed_paths", Texts(changedPaths))] + DigestFields(SHARED_DIGESTS)
  }

  /** `ResultRecord.to_dict`. */
  function ResultJson(r: ResultRecord): Json {
    Object(CommonFields(r.changedPaths) + (DigestFields(RESULT_DIGESTS) + PlainFields(r)))
  }

  function ResultText(r: ResultRecord): string {
    Print(ResultJson(r))
  }

  /** The result passes the size limit of `parse_result`. */
  predicate ResultFits(r: ResultRecord) {
    0 < Utf8Length(ResultText(r)) <= MAX_RESPONSE_BYTES
  }

  /** A workspace-write response as the adapter prints it. */
  function WriteResponseJson(changedPaths: seq<string>): Json {
    Object(CommonFields(changedPaths) + DigestFields(RESPONSE_DIGESTS))
  }

  function WriteResponseBytes(changedPaths: seq<string>): nat {
    Utf8Length(Print(WriteResponseJson(changedPaths)))
  }

  // ----- sizes

  lemma {:induction false} JoinedLength(a: string, b: string)
    ensures Utf8Length(a + b) == Utf8Length(a) + Utf8Length(b)
  {
    if a == [] {
      assert a + b == b;
    } else {
      assert (a + b)[1..] == a[1..] + b;
      JoinedLength(a[1..], b);
    }
  }

  /** The printed size of a value, computed without sorting its keys. */
  function Size(v: Json): nat
    decreases v, 1
  {
    match v
    case List(items) => 2 + ItemSizes(items)
    case Tuple(items) => 2 + ItemSizes(items)
    case Object(fields) => 2 + FieldSizes(fields) + if fields == [] then 0 else |fields| - 1
    case _ => Utf8Length(Render(v))
  }

  function ItemSizes(xs: seq<Json>): nat
    decreases xs, 0
  {
    if xs == [] then 0
    else if |xs| == 1 then Size(xs[0])
    else Size(xs[0]) + 1 + ItemSizes(xs[1..])
  }

  function FieldSize(f: Field): nat
    decreases f, 0
  {
    Utf8Length(PrintString(f.key)) + 1 + Size(f.value)
  }

  function FieldSizes(fs: seq<Field>): nat
    decreases fs, 0
  {
    if fs == [] then 0 else FieldSize(fs[0]) + FieldSizes(fs[1..])
  }

  lemma WrappedLength(a: string, b: string, c: string)
    ensures Utf8Length(a + b + c) == Utf8Length(a) + Utf8Length(b) + Utf8Length(c)
  {
    JoinedLength(a + b, c);
    JoinedLength(a, b);
  }

  lemma {:induction false} RenderedSize(v: Json)
    ensures Utf8Length(Render(v)) == Size(v)
    decreases v, 1
  {
    match v
    case List(items) => RenderedItems(items); WrappedLength("[", RenderItems(items), "]");
    case Tuple(items) => RenderedItems(items); WrappedLength("[", RenderItems(items), "]");
    case Object(fields) => RenderedFields(fields); WrappedLength("{", RenderFields(fields), "}");
    case _ =>
  }

  lemma {:induction false} RenderedItems(xs: seq<Json>)
    ensures Utf8Length(RenderItems(xs)) == ItemSizes(xs)
    decreases xs, 0
  {
    if xs != [] {
      RenderedSize(xs[0]);
      if |xs| > 1 {
        RenderedItems(xs[1..]);
        WrappedLength(Render(xs[0]), ",", RenderItems(xs[1..]));
      }
    }
  }

  lemma {:induction false} RenderedFields(fs: seq<Field>)
    ensures Utf8Length(RenderFields(fs)) == FieldSizes(fs) + if fs == [] then 0 else |fs| - 1
    decreases fs, 0
  {
    if fs != [] {
      RenderedSize(fs[0].value);
      WrappedLength(PrintString(fs[0].key), ":", Render(fs[0].value));
      if |fs| > 1 {
        RenderedFields(fs[1..]);
        WrappedLength(RenderField(fs[0]), ",", RenderFields(fs[1..]));
      }
    }
  }

  lemma {:induction false} InsertedSizes(f: Field, fs: seq<Field>)
    ensures FieldSizes(InsertField(f, fs)) == FieldSize(f) + FieldSizes(fs)
    ensures |InsertField(f, fs)| == |fs| + 1
  {
    if fs == [] {
    } else if Less(f.key, fs[0].key) {
      assert ([f] + fs)[1..] == fs;
    } else {
      InsertedSizes(f, fs[1..]);
      assert ([fs[0]] + InsertField(f, fs[1..]))[1..] == InsertField(f, fs[1..]);
    }
  }

  lemma {:induction false} SortedSizes(fs: seq<Field>)
    ensures FieldSizes(SortFields(fs)) == FieldSizes(fs)
    ensures |SortFields(fs)| == |fs|
  {
    if fs != [] {
      SortedSizes(fs[1..]);
      InsertedSizes(fs[0], SortFields(fs[1..]));
    }
  }

  lemma {:induction false} NormalizedSize(v: Json)
    ensures Size(Normalize(v)) == Size(v)
    decreases v, 1
  {
    match v
    case List(items) => NormalizedItemSizes(items);
    case Tuple(items) => NormalizedItemSizes(items);
    case Object(fields) => NormalizedFieldSizes(fields); SortedSizes(NormalizeFields(fields));
    case _ =>
  }

  lemma {:induction false} NormalizedItemSizes(xs: seq<Json>)
    ensures ItemSizes(NormalizeItems(xs)) == ItemSizes(xs)
    decreases xs, 0
  {
    if xs != [] {
      NormalizedSize(xs[0]);
      NormalizedItemSizes(xs[1..]);
      assert NormalizeItems(xs)[1..] == NormalizeItems(xs[1..]);
    }
  }

  lemma {:induction false} NormalizedFieldSizes(fs: seq<Field>)
    ensures FieldSizes(NormalizeFields(fs)) == FieldSizes(fs)
    decreases fs, 0
  {
    if fs != [] {
      NormalizedSize(fs[0].value);
      NormalizedFieldSizes(fs[1..]);
      assert NormalizeFields(fs)[1..] == NormalizeFields(fs[1..]);
    }
  }

  /** The size of canonical JSON does not depend on the order of keys. */
  lemma PrintedSize(v: Json)
    ensures Utf8Length(Print(v)) == Size(v)
  {
    NormalizedSize(v);
    RenderedSize(Normalize(v));
  }

  lemma {:induction false} JoinedFieldSizes(a: seq<Field>, b: seq<Field>)
    ensures FieldSizes(a + b) == FieldSizes(a) + FieldSizes(b)
  {
    if a == [] {
      assert a + b == b;
    } else {
      assert (a + b)[1..] == a[1..] + b;
      JoinedFieldSizes(a[1..], b);
    }
  }

  // ----- a response within the limit whose result is beyond it

  lemma {:induction false} PrintedCharsBounds(s: string)
    ensures |s| <= Utf8Length(PrintChars(s)) <= 6 * |s|
  {
    if s != [] {
      PrintedCharsBounds(s[1..]);
      EscapeBounds(s[0]);
      JoinedLength(Escape(s[0]), PrintChars(s[1..]));
    }
  }

  lemma {:induction false} AsciiLength(s: string)
    requires forall k | 0 <= k < |s| :: s[k] as int < 0x80
    ensures Utf8Length(s) == |s|
  {
    if s != [] {
      AsciiLength(s[1..]);
    }
  }

  lemma EscapeBounds(c: char)
    ensures 1 <= Utf8Length(Escape(c)) <= 6
  {
    if Escape(c) != [c] {
      HexIsAscii(c as int / 16 % 16);
      HexIsAscii(c as int % 16);
      AsciiLength(Escape(c));
    }
  }

  lemma HexIsAscii(n: int)
    requires 0 <= n < 16
    ensures HexDigit(n) as int < 0x80
  {
  }

  lemma PrintedStringBounds(s: string)
    ensures |s| + 2 <= Utf8Length(PrintString(s)) <= 6 * |s| + 2
  {
    PrintedCharsBounds(s);
    WrappedLength("\"", PrintChars(s), "\"");
  }

  /** Fields that all hold the text `text`. */
  predicate AllHold(fs: seq<Field>, names: seq<string>, text: string) {
    |fs| == |names| && forall k | 0 <= k < |names| :: fs[k] == Field(names[k], Str(text))
  }

  lemma {:induction false} SumBounds(fs: seq<Field>, lo: nat, hi: nat)
    requires forall f | f in fs :: lo <= FieldSize(f) <= hi
    ensures lo * |fs| <= FieldSizes(fs) <= hi * |fs|
  {
    if fs != [] {
      SumBounds(fs[1..], lo, hi);
      Step(lo, |fs|);
      Step(hi, |fs|);
    }
  }

  lemma Step(a: nat, n: nat)
    requires n > 0
    ensures a * n == a + a * (n - 1)
  {
  }

  lemma HeldTextBounds(fs: seq<Field>, names: seq<string>, text: string, longest: nat)
    requires AllHold(fs, names, text) && forall name | name in names :: |name| <= longest
    ensures var size := Size(Str(text));
            (3 + size) * |names| <= FieldSizes(fs) <= (6 * longest + 3 + size) * |names|
  {
    var size := Size(Str(text));
    forall f | f in fs
      ensures 3 + size <= FieldSize(f) <= 6 * longest + 3 + size
    {
      PrintedStringBounds(f.key);
    }
    SumBounds(fs, 3 + size, 6 * longest + 3 + size);
  }

  lemma TwoPartObject(a: seq<Field>, b: seq<Field>)
    requires a != []
    ensures Utf8Length(Print(Object(a + b))) == 1 + FieldSizes(a) + FieldSizes(b) + |a| + |b|
  {
    PrintedSize(Object(a + b));
    JoinedFieldSizes(a, b);
  }

  lemma Exceeds(
    common: seq<Field>, text: string,
    a: seq<Field>, aNames: seq<string>, b: seq<Field>, bNames: seq<string>, more: seq<Field>)
    requires common != [] && |text| >= 71
    requires AllHold(a, aNames, text) && |aNames| == 3 && forall name | name in aNames :: |name| <= 16
    requires AllHold(b, bNames, text) && |bNames| == 8 && forall name | name in bNames :: |name| <= 29
    ensures Utf8Length(Print(Object(common + a))) + 64 < Utf8Length(Print(Object(common + (b + more))))
  {
    TwoPartObject(common, a);
    TwoPartObject(common, b + more);
    JoinedFieldSizes(b, more);
    HeldTextBounds(a, aNames, text, 16);
    HeldTextBounds(b, bNames, text, 29);
    PrintedStringBounds(text);
  }

  lemma NamesAreShort()
    ensures |RESPONSE_DIGESTS| == 3 && forall name | name in RESPONSE_DIGESTS :: |name| <= 16
    ensures |RESULT_DIGESTS| == 8 && forall name | name in RESULT_DIGESTS :: |name| <= 29
  {
  }

  /** A result with the same changed paths is always longer than its response,
      and by more than 64 bytes. */
  lemma ResultExceedsResponse(r: ResultRecord)
    ensures WriteResponseBytes(r.changedPaths) + 64 < Utf8Length(ResultText(r))
  {
    NamesAreShort();
    Exceeds(
      CommonFields(r.changedPaths), DigestText(), DigestFields(RESPONSE_DIGESTS), RESPONSE_DIGESTS,
      DigestFields(RESULT_DIGESTS), RESULT_DIGESTS, PlainFields(r));
  }

  // ----- paths that fill a response

  const PATH_LENGTH := 61

  const STEM := "generated_source_file_of_" + "a_code_task_exercise_with_number"

  function DigitOf(n: nat): (c: char)
    ensures '0' <= c <= '9' && c as int == '0' as int + n % 10
  {
    '0' + (n % 10) as char
  }

  /** A file name that ends in a number of four digits. */
  function NumberedPath(stem: string, k: nat): (p: string) {
    stem + Digits(k)
  }

  function Digits(k: nat): (s: string)
    ensures |s| == 4
  {
    [DigitOf(k / 10 / 10 / 10), DigitOf(k / 10 / 10), DigitOf(k / 10), DigitOf(k)]
  }

  function NumberedPaths(stem: string, n: nat): (ps: seq<string>)
    ensures |ps| == n && forall k | 0 <= k < n :: ps[k] == NumberedPath(stem, k)
  {
    seq(n, k requires 0 <= k < n => NumberedPath(stem, k))
  }

  /** Sorted, without repetition, and of plain names that a file can have. */
  ghost predicate OrdinaryPaths(ps: seq<string>) {
    && (forall j, k | 0 <= j < k < |ps| :: Less(ps[j], ps[k]))
    && (forall p | p in ps :: 0 < |p| <= PATH_LENGTH && AllPlain(p))
  }

  predicate AllPlain(s: string) {
    forall k | 0 <= k < |s| :: '0' <= s[k] <= '9' || 'a' <= s[k] <= 'z' || s[k] == '_'
  }

  lemma {:induction false} LessAt(a: string, b: string, i: nat)
    requires |a| == |b| && i < |a| && a[..i] == b[..i] && a[i] < b[i]
    ensures Less(a, b)
  {
    if i > 0 {
      assert a[0] == a[..i][0] == b[..i][0] == b[0];
      assert a[1..][..i - 1] == a[..i][1..] == b[..i][1..] == b[1..][..i - 1];
      LessAt(a[1..], b[1..], i - 1);
    }
  }

  lemma DigitsTell(j: nat, k: nat)
    requires j < k
    ensures j / 10 < k / 10 || (j / 10 == k / 10 && DigitOf(j) < DigitOf(k))
  {
  }

  lemma DigitsDiffer(j: nat, k: nat) returns (i: nat)
    requires j < k < 10_000
    ensures i < 4 && Digits(j)[..i] == Digits(k)[..i] && Digits(j)[i] < Digits(k)[i]
  {
    DigitsTell(j, k);
    DigitsTell(j / 10, if j / 10 < k / 10 then k / 10 else j / 10 + 1);
    i := if j / 10 == k / 10 then 3 else if j / 10 / 10 == k / 10 / 10 then 2
         else if j / 10 / 10 / 10 == k / 10 / 10 / 10 then 1 else 0;
    if i < 2 {
      DigitsTell(j / 10 / 10, k / 10 / 10);
    }
  }

  lemma NumbersSort(stem: string, j: nat, k: nat)
    requires j < k < 10_000
    ensures Less(NumberedPath(stem, j), NumberedPath(stem, k))
  {
    var a, b := NumberedPath(stem, j), NumberedPath(stem, k);
    var i := DigitsDiffer(j, k);
    assert a[..|stem| + i] == stem + Digits(j)[..i] && b[..|stem| + i] == stem + Digits(k)[..i];
    LessAt(a, b, |stem| + i);
  }

  lemma NumberedPathsAreOrdinary(stem: string, n: nat)
    requires n <= 10_000 && |stem| == PATH_LENGTH - 4 && AllPlain(stem)
    ensures OrdinaryPaths(NumberedPaths(stem, n))
  {
    var ps := NumberedPaths(stem, n);
    forall j, k | 0 <= j < k < n
      ensures Less(ps[j], ps[k])
    {
      NumbersSort(stem, j, k);
    }
    forall p | p in ps
      ensures 0 < |p| <= PATH_LENGTH && AllPlain(p)
    {
      var k :| 0 <= k < n && ps[k] == p;
    }
  }

  lemma {:induction false} PlainChars(s: string)
    requires AllPlain(s)
    ensures Utf8Length(PrintChars(s)) == |s|
  {
    if s != [] {
      PlainChars(s[1..]);
      assert Escape(s[0]) == [s[0]];
      JoinedLength([s[0]], PrintChars(s[1..]));
    }
  }

  lemma PlainText(s: string)
    requires AllPlain(s)
    ensures Size(Str(s)) == |s| + 2
  {
    PlainChars(s);
    WrappedLength("\"", PrintChars(s), "\"");
  }

  lemma {:induction false} EvenItems(xs: seq<Json>, size: nat)
    requires xs != [] && forall x | x in xs :: Size(x) == size
    ensures ItemSizes(xs) == |xs| * (size + 1) - 1
  {
    if |xs| > 1 {
      EvenItems(xs[1..], size);
      Step(size + 1, |xs|);
    }
  }

  lemma PathFieldSize(name: string, paths: seq<string>)
    ensures FieldSizes([Field(name, Texts(paths))]) == Utf8Length(PrintString(name)) + 3 + ItemSizes(Texts(paths).items)
  {
    var f := Field(name, Texts(paths));
    assert Size(Texts(paths)) == 2 + ItemSizes(Texts(paths).items);
    assert FieldSizes([f]) == FieldSize(f);
  }

  lemma NumberedItems(stem: string, n: nat)
    requires 0 < n <= 10_000 && |stem| == PATH_LENGTH - 4 && AllPlain(stem)
    ensures ItemSizes(Texts(NumberedPaths(stem, n)).items) == n * (PATH_LENGTH + 3) - 1
  {
    var ps := NumberedPaths(stem, n);
    NumberedPathsAreOrdinary(stem, n);
    var items := Texts(ps).items;
    forall x | x in items
      ensures Size(x) == PATH_LENGTH + 2
    {
      var k :| 0 <= k < n && items[k] == x;
      assert ps[k] in ps;
      PlainText(ps[k]);
    }
    EvenItems(items, PATH_LENGTH + 2);
  }

  function ResponseOverhead(): nat {
    WriteResponseBytes([])
  }

  /** Each numbered path adds its characters, two quotes and a comma. */
  lemma ResponseGrowsWithPaths(stem: string, n: nat)
    requires 0 < n <= 10_000 && |stem| == PATH_LENGTH - 4 && AllPlain(stem)
    ensures WriteResponseBytes(NumberedPaths(stem, n)) == ResponseOverhead() + n * (PATH_LENGTH + 3) - 1
  {
    var ps := NumberedPaths(stem, n);
    NumberedItems(stem, n);
    PathFieldSize("changed_paths", ps);
    PathFieldSize("changed_paths", []);
    assert ItemSizes(Texts([]).items) == 0;
    JoinedFieldSizes([Field("changed_paths", Texts(ps))], DigestFields(SHARED_DIGESTS));
    JoinedFieldSizes([Field("changed_paths", Texts([]))], DigestFields(SHARED_DIGESTS));
    TwoPartObject(CommonFields(ps), DigestFields(RESPONSE_DIGESTS));
    TwoPartObject(CommonFields([]), DigestFields(RESPONSE_DIGESTS));
  }

  lemma SmallObject(name: string, text: string, a: seq<Field>, aNames: seq<string>, b: seq<Field>, bNames: seq<string>)
    requires |name| <= 17 && |text| == 71
    requires AllHold(a, aNames, text) && |aNames| == 3 && forall n | n in aNames :: |n| <= 17
    requires AllHold(b, bNames, text) && |bNames| == 3 && forall n | n in bNames :: |n| <= 17
    ensures Utf8Length(Print(Object([Field(name, Texts([]))] + a + b))) < MAX_RESPONSE_BYTES / 2
  {
    var first := [Field(name, Texts([]))];
    TwoPartObject(first + a, b);
    JoinedFieldSizes(first, a);
    PathFieldSize(name, []);
    assert ItemSizes(Texts([]).items) == 0;
    PrintedStringBounds(name);
    PrintedStringBounds(text);
    HeldTextBounds(a, aNames, text, 17);
    HeldTextBounds(b, bNames, text, 17);
  }

  lemma OverheadIsSmall()
    ensures ResponseOverhead() < MAX_RESPONSE_BYTES / 2
  {
    SmallObject(
      "changed_paths", DigestText(), DigestFields(SHARED_DIGESTS), SHARED_DIGESTS,
      DigestFields(RESPONSE_DIGESTS), RESPONSE_DIGESTS);
  }

  /** As many numbered paths as a response with this overhead can report. */
  function PathsToFill(stem: string, overhead: nat): (ps: seq<string>) {
    NumberedPaths(stem, if overhead <= MAX_RESPONSE_BYTES then (MAX_RESPONSE_BYTES + 1 - overhead) / (PATH_LENGTH + 3) else 0)
  }

  /** About a thousand paths. */
  function FillingPaths(): (ps: seq<string>) {
    PathsToFill(STEM, ResponseOverhead())
  }

  lemma StemIsPlain()
    ensures |STEM| == PATH_LENGTH - 4 && AllPlain(STEM)
  {
    assert AllPlain("generated_source_file_of_") && AllPlain("a_code_task_exercise_with_number");
  }

  lemma PathsToFillAreOrdinary(stem: string, overhead: nat)
    requires |stem| == PATH_LENGTH - 4 && AllPlain(stem) && overhead < MAX_RESPONSE_BYTES / 2
    ensures OrdinaryPaths(PathsToFill(stem, overhead)) && 0 < |PathsToFill(stem, overhead)| <= 1024
  {
    NumberedPathsAreOrdinary(stem, |PathsToFill(stem, overhead)|);
  }

  lemma FillingPathsAreOrdinary()
    ensures OrdinaryPaths(FillingPaths()) && 0 < |FillingPaths()| <= 1024
  {
    StemIsPlain();
    OverheadIsSmall();
    PathsToFillAreOrdinary(STEM, ResponseOverhead());
  }

  lemma FilledResponseFits(stem: string, overhead: nat)
    requires |stem| == PATH_LENGTH - 4 && AllPlain(stem) && overhead < MAX_RESPONSE_BYTES / 2
    requires overhead == ResponseOverhead()
    ensures MAX_RESPONSE_BYTES - 64 < WriteResponseBytes(PathsToFill(stem, overhead)) <= MAX_RESPONSE_BYTES
  {
    ResponseGrowsWithPaths(stem, |PathsToFill(stem, overhead)|);
  }

  /** A response that reports them is within the limit; its result is not. */
  lemma FilledResponseOverflows(r: ResultRecord)
    requires r.changedPaths == FillingPaths()
    ensures WriteResponseBytes(r.changedPaths) <= MAX_RESPONSE_BYTES
    ensures !ResultFits(r)
  {
    StemIsPlain();
    OverheadIsSmall();
    FilledResponseFits(STEM, ResponseOverhead());
    ResultExceedsResponse(r);
  }
}
