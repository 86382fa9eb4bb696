/** The entry points of the persona generator: `process_csv`/`process_csv2`
    with their size ceiling, `process_md`, and the chunked
    `process_large_csv`/`process_large_csv2`. Reading and decoding the files is
    left out: each entry point receives the text `full_text` would hold. */
module PersonaPipeline {
  import opened Common
  import opened PersonaSaving
  import opened PersonaPrompt
  import opened PersonaGeneration

  // ---------------------------------------------------------------------
  // Generation as seen by the entry points

  /** What builds the prompt from the source material: `generate_prompt`
      with the kind of material fixed. */
  type Prompter = string -> string

  /** One generation call: what `_generate_personas(prompt)` returns when
      it starts at a given service call. */
  type Generator = (string, nat) -> Attempts<seq<Json>>

  /** `generate_prompt(material, is_csv=True)`: the survey prompt. */
  function SurveyPrompt(material: string): string {
    GeneratePrompt(material, true)
  }

  /** `generate_prompt(material, is_csv=False)`: the interview prompt. */
  function InterviewPrompt(material: string): string {
    GeneratePrompt(material, false)
  }

  /** `_generate_personas`: the rate-limit retry loop, then persona
      extraction from the answer. */
  function Generation(svc: Service<seq<string>>, decode: Decoder): Generator {
    (prompt: string, call: nat) => WithRecords(RetryFrom(prompt, svc, RateLimitPolicy, call, 0), decode)
  }

  /** A generation call makes one to five service calls and sleeps only to
      back off. */
  ghost predicate Bounded(gen: Generator) {
    forall prompt: string, call: nat ::
      call < gen(prompt, call).next <= call + MaxAttempts && Pacings(gen(prompt, call).pauses) == 0
  }

  /** The retry waits inside one generation are never pacing delays. */
  lemma {:induction false} RetryNoPacing<T>(prompt: string, svc: Service<T>, retry: RetryPolicy, call: nat, failures: nat)
    requires failures < MaxAttempts
    ensures Pacings(RetryFrom(prompt, svc, retry, call, failures).pauses) == 0
    decreases MaxAttempts - failures
  {
    var o := svc(call, prompt);
    if o.Raised? && retry(o.message).Some? && failures + 1 < MaxAttempts {
      var rest := RetryFrom(prompt, svc, retry, call + 1, failures + 1);
      RetryNoPacing(prompt, svc, retry, call + 1, failures + 1);
      PacingsAppend([Backoff(retry(o.message).value)], rest.pauses);
    }
  }

  lemma GenerationBounded(svc: Service<seq<string>>, decode: Decoder)
    ensures Bounded(Generation(svc, decode))
  {
    forall prompt: string, call: nat
      ensures var a := Generation(svc, decode)(prompt, call);
        call < a.next <= call + MaxAttempts && Pacings(a.pauses) == 0
    {
      RetryBounds(prompt, svc, RateLimitPolicy, call, 0);
      RetryNoPacing(prompt, svc, RateLimitPolicy, call, 0);
    }
  }

  /** `_save_personas` applied to what generation returned; a generation error
      propagates unchanged. */
  function SaveGenerated(a: Attempts<seq<Json>>, ns: Namespace): Attempts<Saved> {
    match a.result
    case Err(e) => Attempts(Err(e), a.pauses, a.next)
    case Ok(ps) => Attempts(SavedPersonas(ps, ns), a.pauses, a.next)
  }

  /** The tail shared by the entry points: generate from the prompt, then
      save what came back under the namespace. */
  method GenerateAndSave(prompt: string, ns: Namespace, svc: Service<seq<string>>, decode: Decoder, call: nat)
    returns (r: Attempts<Saved>)
    ensures r == SaveGenerated(Generation(svc, decode)(prompt, call), ns)
  {
    var a := GeneratePersonas(prompt, svc, decode, call);
    if a.result.Err? {
      return Attempts(Err(a.result.error), a.pauses, a.next);
    }
    var saved := SavePersonas(a.result.value, ns);
    return Attempts(saved, a.pauses, a.next);
  }

  // ---------------------------------------------------------------------
  // Whole-file entry points

  const TooLargeMessage: string := "問卷資料太大，超過模型可以處理的範圍，請減少資料量。"

  /** `len(full_text) / 2 > 100000`: the token estimate is half the length,
      so the ceiling is 200000 characters. */
  function TooLarge(text: string): (r: bool)
    ensures r <==> |text| > 200000
  {
    |text| as real / 2.0 > 100000.0
  }

  function CsvRun(text: string, ns: Namespace, prompt: Prompter, gen: Generator, call: nat): Attempts<Saved> {
    if TooLarge(text) then Attempts(Err(TooLargeMessage), [], call)
    else SaveGenerated(gen(prompt(text), call), ns)
  }

  /** `process_csv` (namespace `Csv`) and `process_csv2` (namespace `Csv2`). */
  method ProcessCsv(text: string, ns: Namespace, svc: Service<seq<string>>, decode: Decoder, call: nat)
    returns (r: Attempts<Saved>)
    requires ns != Md
    ensures r == CsvRun(text, ns, SurveyPrompt, Generation(svc, decode), call)
  {
    if TooLarge(text) {
      return Attempts(Err(TooLargeMessage), [], call);
    }
    var prompt := SurveyPrompt(text);
    r := GenerateAndSave(prompt, ns, svc, decode, call);
  }

  /** The ceiling is checked before any model call: text over 200000
      characters is refused without calling the service or sleeping, and any
      other text is sent, in one to five calls. */
  lemma CsvSizeCeiling(text: string, ns: Namespace, prompt: Prompter, gen: Generator, call: nat)
    requires Bounded(gen)
    ensures var r := CsvRun(text, ns, prompt, gen, call);
      && (|text| > 200000 <==> r.next == call)
      && (|text| > 200000 ==> r.result == Err(TooLargeMessage) && r.pauses == [])
      && (|text| <= 200000 ==> call < r.next <= call + MaxAttempts)
  {
    if !TooLarge(text) {
      assert call < gen(prompt(text), call).next <= call + MaxAttempts;
    }
  }

  /** Every persona a CSV entry point writes carries an identifier with its
      namespace prefix and at least one other attribute. */
  lemma CsvIdsPrefixed(text: string, ns: Namespace, prompt: Prompter, gen: Generator, call: nat)
    requires CsvRun(text, ns, prompt, gen, call).result.Ok?
    ensures var s := CsvRun(text, ns, prompt, gen, call).result.value;
      s.Written? ==> forall i :: 0 <= i < |s.personas| ==>
        |s.personas[i]| >= 2 && IdKey in s.personas[i] && s.personas[i][IdKey].JStr?
        && StartsWith(s.personas[i][IdKey].s, IdPrefix(ns))
  {
    SavedShape(gen(prompt(text), call).result.value, ns);
  }

  const Separator: string := "\n\n=== 分隔線 ===\n\n"

  /** `sep.join(parts)` */
  function Join(parts: seq<string>, sep: string): (r: string)
    ensures parts == [] ==> r == ""
    ensures |parts| == 1 ==> r == parts[0]
    ensures |parts| >= 1 ==> StartsWith(r, parts[0])
  {
    if parts == [] then ""
    else if |parts| == 1 then parts[0]
    else
      var r := parts[0] + sep + Join(parts[1..], sep);
      assert r[..|parts[0]|] == parts[0];
      r
  }

  function TotalLength(parts: seq<string>): nat {
    if parts == [] then 0 else |parts[0]| + TotalLength(parts[1..])
  }

  /** The joined text holds every part and one separator between two parts. */
  lemma {:induction false} JoinLength(parts: seq<string>, sep: string)
    requires parts != []
    ensures |Join(parts, sep)| == TotalLength(parts) + (|parts| - 1) * |sep|
  {
    if |parts| > 1 {
      JoinLength(parts[1..], sep);
      assert (|parts| - 1) * |sep| == (|parts| - 2) * |sep| + |sep|;
    }
  }

  function MdRun(texts: seq<string>, prompt: Prompter, gen: Generator, call: nat): Attempts<Saved> {
    SaveGenerated(gen(prompt(Join(texts, Separator)), call), Md)
  }

  /** `process_md`: the documents joined by the separator line, sent as
      interview material. The token estimate is computed but not checked. */
  method ProcessMd(texts: seq<string>, svc: Service<seq<string>>, decode: Decoder, call: nat) returns (r: Attempts<Saved>)
    ensures r == MdRun(texts, InterviewPrompt, Generation(svc, decode), call)
  {
    var fullText := Join(texts, Separator);
    var prompt := InterviewPrompt(fullText);
    r := GenerateAndSave(prompt, Md, svc, decode, call);
  }

  /** The interview path has no ceiling: whatever the size of the documents,
      the service is called, at most five times. */
  lemma MdNoCeiling(texts: seq<string>, prompt: Prompter, gen: Generator, call: nat)
    requires Bounded(gen)
    ensures var r := MdRun(texts, prompt, gen, call);
      call < r.next <= call + MaxAttempts
  {
    assert call < gen(prompt(Join(texts, Separator)), call).next <= call + MaxAttempts;
  }

  // ---------------------------------------------------------------------
  // Chunked entry points

  const BatchSize: nat := 15000
  const BatchWait: nat := 5
  const BatchKey: string := "batch_info"
  const ZeroStepMessage: string := "range() arg 3 must not be zero"
  const NothingCollectedMessage: string := "所有批次處理都失敗，未能生成任何 persona"

  /** With the default `BATCH_SIZE`, the text is sent in ceil(|text| / 15000)
      chunks of at most 15000 characters, which together give back the text. */
  lemma DefaultChunks(text: string)
    ensures var c := Chunks(text, BatchSize);
      && |c| == (|text| + BatchSize - 1) / BatchSize
      && Flatten(c) == text
      && forall i :: 0 <= i < |c| ==> 0 < |c[i]| <= BatchSize
  {
    SlicesCount(text, BatchSize);
    SlicesFlatten(text, BatchSize);
  }

  /** The slices from position i on: the one starting at i, then those from
      its end on. */
  lemma SlicesFrom(text: string, size: nat, i: nat, end: nat)
    requires size > 0 && i < |text|
    requires end == if i + size <= |text| then i + size else |text|
    ensures Slices(text[i..], size) == [text[i..end]] + Slices(text[end..], size)
  {
    var rest := text[i..];
    assert rest[..end - i] == text[i..end];
    assert rest[end - i..] == text[end..];
    if |rest| <= size {
      assert text[end..] == [] && rest == text[i..end];
    }
  }

  /** The loop `for i in range(0, len(full_text), batch_size)` collecting
      `full_text[i:i + batch_size]`. */
  method SplitText(text: string, size: nat) returns (chunks: seq<string>)
    requires size > 0
    ensures chunks == Slices(text, size)
  {
    chunks := [];
    var i := 0;
    while i < |text|
      invariant i <= |text|
      invariant chunks + Slices(text[i..], size) == Slices(text, size)
      decreases |text| - i
    {
      var end := if i + size <= |text| then i + size else |text|;
      SlicesFrom(text, size, i, end);
      assert (chunks + [text[i..end]]) + Slices(text[end..], size)
          == chunks + ([text[i..end]] + Slices(text[end..], size));
      chunks := chunks + [text[i..end]];
      i := end;
    }
    assert text[i..] == [];
  }

  /** The chunk list of a nonzero batch size: a negative step gives an empty
      range. */
  function Chunks(text: string, batchSize: int): seq<string>
    requires batchSize != 0
  {
    if batchSize < 0 then [] else Slices(text, batchSize)
  }

  /** `f"Batch {i+1}/{len(chunks)}"` */
  function BatchTag(i: nat, n: nat): string {
    "Batch " + NatToString(i + 1) + "/" + NatToString(n)
  }

  /** The tagging loop `for p in chunk_personas: p['batch_info'] = tag`:
      every record gets the tag, and the first record that is not a dict
      makes the assignment raise. */
  function Tag(ps: seq<Json>, tag: string): Option<seq<Json>> {
    if ps == [] then Some([])
    else match ps[0]
      case JObj(f) =>
        (match Tag(ps[1..], tag)
         case Some(rest) => Some([JObj(f[BatchKey := JStr(tag)])] + rest)
         case None => None)
      case _ => None
  }

  /** Tagging succeeds exactly when every record is a dict, and then adds
      the tag to each of them, in order. */
  lemma {:induction false} TagShape(ps: seq<Json>, tag: string)
    ensures var r := Tag(ps, tag);
      && (r.Some? <==> forall i :: 0 <= i < |ps| ==> ps[i].JObj?)
      && (r.Some? ==> |r.value| == |ps|)
      && (r.Some? ==> forall i :: 0 <= i < |ps| ==> r.value[i] == JObj(ps[i].fields[BatchKey := JStr(tag)]))
  {
    if ps != [] {
      TagShape(ps[1..], tag);
      var r := Tag(ps, tag);
      if ps[0].JObj? && r.Some? {
        forall i | 0 < i < |ps| ensures r.value[i] == JObj(ps[i].fields[BatchKey := JStr(tag)]) {
          assert ps[i] == ps[1..][i - 1];
        }
      }
      if !r.Some? && ps[0].JObj? {
        var j :| 0 <= j < |ps[1..]| && !ps[1..][j].JObj?;
        assert !ps[j + 1].JObj?;
      }
    }
  }

  method TagAll(ps: seq<Json>, tag: string) returns (r: Option<seq<Json>>)
    ensures r == Tag(ps, tag)
  {
    TagShape(ps, tag);
    var tagged: seq<Json> := [];
    for i := 0 to |ps|
      invariant |tagged| == i
      invariant forall j :: 0 <= j < i ==> ps[j].JObj? && tagged[j] == JObj(ps[j].fields[BatchKey := JStr(tag)])
    {
      if !ps[i].JObj? {
        return None;
      }
      tagged := tagged + [JObj(ps[i].fields[BatchKey := JStr(tag)])];
    }
    assert tagged == Tag(ps, tag).value;
    return Some(tagged);
  }

  /** What the chunk loop has collected so far: the tagged personas, the
      sleeps, and the index of the next service call. */
  datatype Progress = Progress(personas: seq<Json>, pauses: seq<Pause>, next: nat)

  /** The chunk produced personas that could all be tagged. */
  predicate ChunkSucceeded(a: Attempts<seq<Json>>, tag: string) {
    a.result.Ok? && Tag(a.result.value, tag).Some?
  }

  /** The rest of one turn of the chunk loop, after generation: on success
      collect the tagged personas and, unless this was the last chunk,
      pause; on any error collect nothing and go on. */
  function Collect(acc: Progress, a: Attempts<seq<Json>>, tag: string, last: bool): Progress {
    var pauses := acc.pauses + a.pauses;
    if !ChunkSucceeded(a, tag) then Progress(acc.personas, pauses, a.next)
    else Progress(acc.personas + Tag(a.result.value, tag).value,
                  if last then pauses else pauses + [Pacing(BatchWait)], a.next)
  }

  /** The chunk loop after its first k turns. */
  function RunChunks(chunks: seq<string>, k: nat, prompt: Prompter, gen: Generator, call: nat): Progress
    requires k <= |chunks|
  {
    if k == 0 then Progress([], [], call)
    else
      var acc := RunChunks(chunks, k - 1, prompt, gen, call);
      Collect(acc, gen(prompt(chunks[k - 1]), acc.next), BatchTag(k - 1, |chunks|), k == |chunks|)
  }

  function LargeCsvRun(text: string, ns: Namespace, batchSize: int, prompt: Prompter, gen: Generator, call: nat)
    : Attempts<Saved>
  {
    if batchSize == 0 then Attempts(Err(ZeroStepMessage), [], call)
    else
      var chunks := Chunks(text, batchSize);
      var run := RunChunks(chunks, |chunks|, prompt, gen, call);
      if run.personas == [] then Attempts(Err(NothingCollectedMessage), run.pauses, run.next)
      else Attempts(SavedPersonas(run.personas, ns), run.pauses, run.next)
  }

  /** The turn of the chunk loop after generation. */
  method CollectChunk(acc: Progress, a: Attempts<seq<Json>>, tag: string, last: bool) returns (r: Progress)
    ensures r == Collect(acc, a, tag, last)
  {
    var personas, pauses := acc.personas, acc.pauses + a.pauses;
    if a.result.Ok? {
      var tagged := TagAll(a.result.value, tag);
      if tagged.Some? {
        personas := personas + tagged.value;
        if !last {
          pauses := pauses + [Pacing(BatchWait)];
        }
      }
    }
    return Progress(personas, pauses, a.next);
  }

  /** One turn of the chunk loop: generate from the chunk's prompt, then
      tag and collect what came back, and pause unless this is the last
      chunk. */
  method RunChunk(acc: Progress, chunk: string, tag: string, last: bool,
                  svc: Service<seq<string>>, decode: Decoder) returns (r: Progress)
    ensures r == Collect(acc, Generation(svc, decode)(SurveyPrompt(chunk), acc.next), tag, last)
  {
    var chunkPrompt := SurveyPrompt(chunk);
    var a := GeneratePersonas(chunkPrompt, svc, decode, acc.next);
    r := CollectChunk(acc, a, tag, last);
  }

  /** The chunk loop: every chunk is sent in turn, whatever became of the
      ones before it. */
  method CollectChunks(chunks: seq<string>, svc: Service<seq<string>>, decode: Decoder, call: nat)
    returns (progress: Progress)
    ensures progress == RunChunks(chunks, |chunks|, SurveyPrompt, Generation(svc, decode), call)
  {
    progress := Progress([], [], call);
    for i := 0 to |chunks|
      invariant progress == RunChunks(chunks, i, SurveyPrompt, Generation(svc, decode), call)
    {
      progress := RunChunk(progress, chunks[i], BatchTag(i, |chunks|), i + 1 == |chunks|, svc, decode);
    }
  }

  /** `process_large_csv` (namespace `Csv`) and `process_large_csv2`
      (namespace `Csv2`). */
  method ProcessLargeCsv(text: string, ns: Namespace, batchSize: int, svc: Service<seq<string>>, decode: Decoder, call: nat)
    returns (r: Attempts<Saved>)
    requires ns != Md
    ensures r == LargeCsvRun(text, ns, batchSize, SurveyPrompt, Generation(svc, decode), call)
  {
    if batchSize == 0 {
      return Attempts(Err(ZeroStepMessage), [], call);
    }
    var chunks: seq<string> := [];
    if batchSize > 0 {
      chunks := SplitText(text, batchSize);
    }
    var progress := CollectChunks(chunks, svc, decode, call);
    var personas, pauses, n := progress.personas, progress.pauses, progress.next;
    if personas == [] {
      return Attempts(Err(NothingCollectedMessage), pauses, n);
    }
    var saved := SavePersonas(personas, ns);
    return Attempts(saved, pauses, n);
  }

  /** A turn adds a pacing delay exactly when its chunk succeeded and is not
      the last one. */
  lemma PacingCollect(acc: Progress, a: Attempts<seq<Json>>, tag: string, last: bool)
    requires Pacings(a.pauses) == 0
    ensures Pacings(Collect(acc, a, tag, last).pauses)
            == Pacings(acc.pauses) + if ChunkSucceeded(a, tag) && !last then 1 else 0
  {
    PacingsAppend(acc.pauses, a.pauses);
    PacingsAppend(acc.pauses + a.pauses, [Pacing(BatchWait)]);
  }

  /** At most one pacing delay per chunk, and none after the last chunk. */
  lemma {:induction false} PacingTotal(chunks: seq<string>, k: nat, prompt: Prompter, gen: Generator, call: nat)
    requires k <= |chunks|
    requires Bounded(gen)
    ensures Pacings(RunChunks(chunks, k, prompt, gen, call).pauses) + (if k == |chunks| && k > 0 then 1 else 0) <= k
  {
    if k > 0 {
      var acc := RunChunks(chunks, k - 1, prompt, gen, call);
      PacingTotal(chunks, k - 1, prompt, gen, call);
      PacingCollect(acc, gen(prompt(chunks[k - 1]), acc.next), BatchTag(k - 1, |chunks|), k == |chunks|);
    }
  }

  /** Every chunk is sent, whether the ones before it failed or not: k turns
      make between k and 5k service calls. */
  lemma {:induction false} RunCalls(chunks: seq<string>, k: nat, prompt: Prompter, gen: Generator, call: nat)
    requires k <= |chunks|
    requires Bounded(gen)
    ensures call + k <= RunChunks(chunks, k, prompt, gen, call).next <= call + MaxAttempts * k
  {
    if k > 0 {
      var acc := RunChunks(chunks, k - 1, prompt, gen, call);
      RunCalls(chunks, k - 1, prompt, gen, call);
      assert acc.next < gen(prompt(chunks[k - 1]), acc.next).next <= acc.next + MaxAttempts;
    }
  }

  /** Each record is a dict tagged with one of the first k of n batches. */
  ghost predicate TaggedBefore(ps: seq<Json>, k: nat, n: nat) {
    forall j :: 0 <= j < |ps| ==>
      ps[j].JObj? && BatchKey in ps[j].fields &&
      exists i :: 0 <= i < k && ps[j].fields[BatchKey] == JStr(BatchTag(i, n))
  }

  /** Every collected persona is a dict tagged with the batch it came from. */
  lemma {:induction false} RunTagged(chunks: seq<string>, k: nat, prompt: Prompter, gen: Generator, call: nat)
    requires k <= |chunks|
    ensures TaggedBefore(RunChunks(chunks, k, prompt, gen, call).personas, k, |chunks|)
  {
    if k > 0 {
      var acc := RunChunks(chunks, k - 1, prompt, gen, call);
      RunTagged(chunks, k - 1, prompt, gen, call);
      var a := gen(prompt(chunks[k - 1]), acc.next);
      var tag := BatchTag(k - 1, |chunks|);
      if ChunkSucceeded(a, tag) {
        var tagged := Tag(a.result.value, tag).value;
        TagShape(a.result.value, tag);
        var ps := acc.personas + tagged;
        assert RunChunks(chunks, k, prompt, gen, call).personas == ps;
        forall j | 0 <= j < |ps|
          ensures ps[j].JObj? && BatchKey in ps[j].fields &&
                  exists i :: 0 <= i < k && ps[j].fields[BatchKey] == JStr(BatchTag(i, |chunks|))
        {
          if j >= |acc.personas| {
            var m := j - |acc.personas|;
            assert ps[j] == tagged[m];
            assert tagged[m] == JObj(a.result.value[m].fields[BatchKey := JStr(tag)]);
          } else {
            assert ps[j] == acc.personas[j];
          }
        }
      }
    }
  }

  /** Text cut into N chunks costs between N and 5N service calls and at
      most N - 1 pacing delays. */
  lemma LargeCsvCalls(text: string, ns: Namespace, batchSize: int, prompt: Prompter, gen: Generator, call: nat)
    requires batchSize > 0 && Bounded(gen)
    ensures var n := |Slices(text, batchSize)|; var r := LargeCsvRun(text, ns, batchSize, prompt, gen, call);
      && call + n <= r.next <= call + MaxAttempts * n
      && Pacings(r.pauses) + (if n > 0 then 1 else 0) <= n
  {
    var chunks := Chunks(text, batchSize);
    RunCalls(chunks, |chunks|, prompt, gen, call);
    PacingTotal(chunks, |chunks|, prompt, gen, call);
  }

  /** A zero batch size raises before any call; a negative one, or empty text,
      gives no chunk and so nothing collected. */
  lemma LargeCsvDegenerate(text: string, ns: Namespace, batchSize: int, prompt: Prompter, gen: Generator, call: nat)
    requires batchSize <= 0 || text == []
    ensures var r := LargeCsvRun(text, ns, batchSize, prompt, gen, call);
      r.next == call && r.pauses == [] &&
      r.result == Err(if batchSize == 0 then ZeroStepMessage else NothingCollectedMessage)
  {
    if batchSize != 0 {
      assert Chunks(text, batchSize) == [];
    }
  }
}
