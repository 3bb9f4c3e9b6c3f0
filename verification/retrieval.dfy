/** src/retrieval.py: the retrieval chain and the query that returns an
    answer with its sources. The vector search and the chat model are opaque
    functions passed in; the chain's own plumbing (retrieve, join the pages,
    fill the prompt, ask the model) is written out. */
module Retrieval {
  import opened Common
  import opened Embeddings

  const DefaultModel := "gpt-4o-mini"
  const DefaultK := 4

  /** What `format_docs` puts between two page contents. */
  const Separator := "\n\n"

  /** The prompt template around `{context}` and `{question}`. */
  const PromptHead := "Use the following context to answer the question.\nIf you cannot answer based on the context, say \"I don't have enough information.\"\n\nContext:\n"
  const PromptMiddle := "\n\nQuestion: "
  const PromptTail := "\n\nAnswer:"

  /** `index.as_retriever(search_kwargs={"k": k})`. */
  datatype Retriever = Retriever(index: Index, k: int)

  /** `ChatOpenAI(model=...)`; the temperature is not modelled. */
  datatype Llm = ChatOpenAI(model: string)

  /** The composed chain: the retriever inside its context step, the model,
      and the retriever attached as `chain.retriever`. */
  datatype Chain = Chain(context: Retriever, llm: Llm, retriever: Retriever)

  /** What `query` returns: the answer and the metadata of each source. */
  datatype QueryResponse = QueryResponse(answer: string, sources: seq<Metadata>)

  /** One call into an opaque collaborator. */
  datatype Invocation =
    | Retrieve(retriever: Retriever, question: string)
    | Generate(llm: Llm, prompt: string)

  /** A query's outcome together with the collaborator calls it made, in order. */
  datatype QueryRun = QueryRun(outcome: Result<QueryResponse, Exception>, calls: seq<Invocation>)

  /** The chain's answer (or what it raised) and the calls it made, in order. */
  datatype ChainRun = ChainRun(answer: Result<string, Exception>, calls: seq<Invocation>)

  /** A retrieval: the documents a retriever returns for a question, or what
      it raises. Each retrieval of a query is its own parameter, since two
      calls into the vector search need not agree. */
  type RetrieveFn = (Retriever, string) -> Result<seq<Doc>, Exception>

  /** A chat-model call: the answer to a prompt, or what it raises. */
  type GenerateFn = (Llm, string) -> Result<string, Exception>

  /** The summed lengths of the page contents. */
  function TotalLength(docs: seq<Doc>): nat
  {
    if docs == [] then 0 else TotalLength(docs[..|docs| - 1]) + |docs[|docs| - 1].pageContent|
  }

  /** `"\n\n".join(doc.page_content for doc in docs)`. */
  function FormatDocs(docs: seq<Doc>): (r: string)
    ensures docs == [] ==> r == ""
    ensures |docs| == 1 ==> r == docs[0].pageContent
    ensures docs != [] ==> |r| == TotalLength(docs) + |Separator| * (|docs| - 1)
  {
    if docs == [] then ""
    else if |docs| == 1 then docs[0].pageContent
    else FormatDocs(docs[..|docs| - 1]) + Separator + docs[|docs| - 1].pageContent
  }

  /** Joining two non-empty runs of documents puts exactly one separator
      between their joins. */
  lemma {:induction false} FormatDocsConcat(a: seq<Doc>, b: seq<Doc>)
    requires a != [] && b != []
    ensures FormatDocs(a + b) == FormatDocs(a) + Separator + FormatDocs(b)
    decreases |b|
  {
    var n := |b| - 1;
    assert (a + b)[..|a + b| - 1] == a + b[..n];
    assert (a + b)[|a + b| - 1] == b[n];
    if n > 0 {
      FormatDocsConcat(a, b[..n]);
      calc {
        FormatDocs(a + b);
        FormatDocs(a + b[..n]) + Separator + b[n].pageContent;
        FormatDocs(a) + Separator + FormatDocs(b[..n]) + Separator + b[n].pageContent;
        FormatDocs(a) + Separator + (FormatDocs(b[..n]) + Separator + b[n].pageContent);
      }
    } else {
      assert a + b[..n] == a;
    }
  }

  /** The prompt with its two placeholders filled: the context and the
      question appear verbatim at their places. */
  function Prompt(context: string, question: string): (p: string)
    ensures Fills(p, context, question)
  {
    FiveParts(PromptHead, context, PromptMiddle, question, PromptTail);
    PromptHead + context + PromptMiddle + question + PromptTail
  }

  /** Each of five joined strings is found back at its own offsets. */
  lemma FiveParts(h: string, c: string, m: string, q: string, t: string)
    ensures var p, i, j, k := h + c + m + q + t, |h|, |h| + |c|, |h| + |c| + |m|;
      && |p| == k + |q| + |t|
      && p[..i] == h && p[i..j] == c && p[j..k] == m
      && p[k..|p| - |t|] == q && p[|p| - |t|..] == t
  {
    var p := h + c + m + q + t;
    assert p == (h + c) + (m + q + t);
    assert p[|h|..|h| + |c|] == (h + c)[|h|..];
    assert p == (h + c + m) + q + t;
    assert p == h + (c + m + q + t);
  }

  /** `p` is the template with `context` and `question` in its two
      placeholders: head, context, middle, question and tail, in that order. */
  predicate Fills(p: string, context: string, question: string)
  {
    var h, c, m := |PromptHead|, |context|, |PromptMiddle|;
    && |p| == h + c + m + |question| + |PromptTail|
    && p[..h] == PromptHead
    && p[h..h + c] == context
    && p[h + c..h + c + m] == PromptMiddle
    && p[h + c + m..|p| - |PromptTail|] == question
    && p[|p| - |PromptTail|..] == PromptTail
  }

  /** Only one text fills the template with a given context and question. */
  lemma {:induction false} FillsUnique(p: string, context: string, question: string)
    requires Fills(p, context, question)
    ensures p == Prompt(context, question)
  {
    PartsJoin(p, PromptHead, context, PromptMiddle, question, PromptTail);
  }

  /** A string holding five strings at consecutive offsets is their join. */
  lemma PartsJoin(p: string, h: string, c: string, m: string, q: string, t: string)
    requires var i, j, k := |h|, |h| + |c|, |h| + |c| + |m|;
      && |p| == k + |q| + |t|
      && p[..i] == h && p[i..j] == c && p[j..k] == m
      && p[k..|p| - |t|] == q && p[|p| - |t|..] == t
    ensures p == h + c + m + q + t
  {
    SlicesJoin(p, |h|, |h| + |c|, |h| + |c| + |m|, |p| - |t|);
  }

  /** Five consecutive slices join back into the whole string. */
  lemma SlicesJoin(p: string, i: nat, j: nat, k: nat, e: nat)
    requires i <= j <= k <= e <= |p|
    ensures p == p[..i] + p[i..j] + p[j..k] + p[k..e] + p[e..]
  {
    assert p[..i] + p[i..j] == p[..j];
    assert p[..j] + p[j..k] == p[..k];
    assert p[..k] + p[k..e] == p[..e];
  }

  /** `create_chain`: the retriever for `k`, used both inside the chain and
      as its `retriever` attribute. */
  function CreateChain(index: Index, model: string, k: int): (c: Chain)
    ensures c.retriever == c.context
    ensures c.retriever.index == index && c.retriever.k == k
    ensures c.llm.model == model
  {
    var retriever := Retriever(index, k);
    Chain(retriever, ChatOpenAI(model), retriever)
  }

  /** `chain.invoke(question)`: retrieve, join, fill the prompt, ask the model;
      the output parser passes the text through. Either opaque call may
      raise, and a raise from the retriever means the model is never asked. */
  function InvokeChain(chain: Chain, question: string, retrieve: RetrieveFn, generate: GenerateFn): (run: ChainRun)
    ensures 1 <= |run.calls| <= 2 && run.calls[0] == Retrieve(chain.context, question)
    ensures |run.calls| == 2 <==> retrieve(chain.context, question).Success?
    ensures retrieve(chain.context, question).Failure? ==> run.answer == Failure(retrieve(chain.context, question).error)
    ensures |run.calls| == 2 ==>
      && run.calls[1].Generate? && run.calls[1].llm == chain.llm
      && Fills(run.calls[1].prompt, FormatDocs(retrieve(chain.context, question).value), question)
      && run.answer == generate(chain.llm, run.calls[1].prompt)
  {
    var docs := retrieve(chain.context, question);
    if docs.Failure? then ChainRun(Failure(docs.error), [Retrieve(chain.context, question)])
    else
      var prompt := Prompt(FormatDocs(docs.value), question);
      ChainRun(generate(chain.llm, prompt), [Retrieve(chain.context, question), Generate(chain.llm, prompt)])
  }

  /** The metadata of each document, in order. */
  function Sources(docs: seq<Doc>): (r: seq<Metadata>)
    ensures |r| == |docs|
    ensures forall i :: 0 <= i < |docs| ==> r[i] == docs[i].metadata
  {
    seq(|docs|, i requires 0 <= i < |docs| => docs[i].metadata)
  }

  /** `query`: the attached retriever first (`retrieve`), then the chain,
      whose own context step retrieves again (`retrieveInChain`); either may
      raise, and a raise from the first retrieval means the chain never runs.
      The sources come from the first retrieval, the answer from the second. */
  function Query(chain: Chain, question: string, retrieve: RetrieveFn, retrieveInChain: RetrieveFn,
                 generate: GenerateFn): (run: QueryRun)
    ensures |run.calls| >= 1 && run.calls[0] == Retrieve(chain.retriever, question)
    ensures retrieve(chain.retriever, question).Failure? ==>
      run == QueryRun(Failure(retrieve(chain.retriever, question).error), [Retrieve(chain.retriever, question)])
    ensures retrieve(chain.retriever, question).Success? ==>
      var inner := InvokeChain(chain, question, retrieveInChain, generate);
      && run.calls == [Retrieve(chain.retriever, question)] + inner.calls
      && (run.outcome.Success? <==> inner.answer.Success?)
      && (run.outcome.Failure? ==> run.outcome.error == inner.answer.error)
      && (run.outcome.Success? ==>
            run.outcome.value == QueryResponse(inner.answer.value, Sources(retrieve(chain.retriever, question).value)))
  {
    var docs := retrieve(chain.retriever, question);
    if docs.Failure? then QueryRun(Failure(docs.error), [Retrieve(chain.retriever, question)])
    else
      var inner := InvokeChain(chain, question, retrieveInChain, generate);
      QueryRun(
        if inner.answer.Failure? then Failure(inner.answer.error)
        else Success(QueryResponse(inner.answer.value, Sources(docs.value))),
        [Retrieve(chain.retriever, question)] + inner.calls)
  }

  /** For a chain built by `create_chain`, and when the chain's own retrieval
      returns what the first retrieval returned, the sources are exactly the
      documents whose pages were put into the prompt the answer came from, in
      the same order and number. */
  lemma SourcesMatchContext(index: Index, model: string, k: int, question: string,
                            retrieve: RetrieveFn, retrieveInChain: RetrieveFn, generate: GenerateFn)
    requires retrieveInChain(Retriever(index, k), question) == retrieve(Retriever(index, k), question)
    ensures var chain := CreateChain(index, model, k);
      var run := Query(chain, question, retrieve, retrieveInChain, generate);
      run.outcome.Success? ==>
        var docs := retrieve(chain.retriever, question).value;
        && run.calls == [Retrieve(chain.retriever, question), Retrieve(chain.retriever, question),
                         Generate(chain.llm, Prompt(FormatDocs(docs), question))]
        && run.outcome.value.sources == Sources(docs)
        && generate(chain.llm, Prompt(FormatDocs(docs), question)) == Success(run.outcome.value.answer)
  {
  }

  /** Without that agreement nothing ties the two together: when the second
      retrieval returns other documents, the answer is built from those while
      the sources still describe the first retrieval's. */
  lemma SourcesMayDifferFromContext(chain: Chain, question: string,
                                    retrieve: RetrieveFn, retrieveInChain: RetrieveFn, generate: GenerateFn)
    requires retrieve(chain.retriever, question).Success? && retrieveInChain(chain.context, question).Success?
    requires Sources(retrieve(chain.retriever, question).value) != Sources(retrieveInChain(chain.context, question).value)
    requires generate(chain.llm, Prompt(FormatDocs(retrieveInChain(chain.context, question).value), question)).Success?
    ensures var run := Query(chain, question, retrieve, retrieveInChain, generate);
      var used := retrieveInChain(chain.context, question).value;
      && run.outcome.Success?
      && run.outcome.value.answer == generate(chain.llm, Prompt(FormatDocs(used), question)).value
      && run.outcome.value.sources != Sources(used)
  {
  }

  /** The defaults of `create_chain`: four documents per query, answered by
      "gpt-4o-mini". */
  lemma DefaultChain(index: Index)
    ensures var c := CreateChain(index, DefaultModel, DefaultK);
      c.retriever.k == 4 && c.context.k == 4 && c.llm == ChatOpenAI("gpt-4o-mini")
  {
  }
}
