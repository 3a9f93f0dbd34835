/** The desktop app's retrieval engine: configuration from the environment, a vector
    index built over one post's text, and the two queries asked of it, whose replies
    are cleaned of the model's thinking before they are returned. */
module Rag {
  import opened Wrappers
  import opened Text

  const ThinkOpen := "<think>"
  const ThinkClose := "</think>"

  /** The marker some models print after their reasoning. */
  const DoneThinking := "...done thinking."

  const ConfigError := "LLM_MODEL and EMBED_MODEL must be set in the .env file."

  /** The FAISS flat L2 index is always created with this many dimensions. */
  const IndexDimension := 768

  /** The fixed query the one-liner summary is asked with. */
  const SummarizeQuery := "Summarize the document."

  /** re.sub(r'<think>.*?</think>', '', s, flags=DOTALL): scanning left to right, an
      opening tag with a closing tag somewhere after it is removed together with the
      shortest text up to and including that closing tag; an opening tag with no
      closing tag after it stays. */
  function RemoveThink(s: string): string
    decreases |s|
  {
    if |s| == 0 then ""
    else if StartsWith(s, ThinkOpen) then
      match FindFrom(s, ThinkClose, |ThinkOpen|)
      case Some(j) => RemoveThink(s[j + |ThinkClose|..])
      case None => [s[0]] + RemoveThink(s[1..])
    else [s[0]] + RemoveThink(s[1..])
  }

  /** The text after the first marker, or all of it when there is none
      (`s.split(marker, 1)[1]` behind an `in` test). */
  function AfterMarker(s: string): (r: string)
    ensures EndsWith(s, r)
  {
    match Find(s, DoneThinking)
    case Some(i) => s[i + |DoneThinking|..]
    case None => s
  }

  /** RagEngine._clean_llm_response */
  function CleanLlmResponse(text: string): (r: string)
    ensures Stripped(r)
    ensures |r| <= |text|
  {
    var cleaned := RemoveThink(text);
    RemoveThinkShorter(text);
    Strip(AfterMarker(cleaned))
  }

  lemma {:induction false} RemoveThinkShorter(s: string)
    ensures |RemoveThink(s)| <= |s|
    decreases |s|
  {
    if |s| > 0 {
      if StartsWith(s, ThinkOpen) {
        match FindFrom(s, ThinkClose, |ThinkOpen|)
        case Some(j) => RemoveThinkShorter(s[j + |ThinkClose|..]);
        case None => RemoveThinkShorter(s[1..]);
      } else {
        RemoveThinkShorter(s[1..]);
      }
    }
  }

  /** A reply with no '<' in it passes through the think filter unchanged. */
  lemma {:induction false} RemoveThinkNoTag(s: string)
    requires '<' !in s
    ensures RemoveThink(s) == s
    decreases |s|
  {
    if |s| > 0 {
      if |ThinkOpen| <= |s| {
        assert s[..|ThinkOpen|][0] == s[0];
      }
      assert !StartsWith(s, ThinkOpen);
      assert '<' !in s[1..];
      RemoveThinkNoTag(s[1..]);
      assert s == [s[0]] + s[1..];
    }
  }

  /** An opening tag followed by reasoning without '<' and its closing tag is removed
      whole, and the filter goes on with what follows. */
  lemma RemoveThinkBlock(body: string, rest: string)
    requires '<' !in body
    ensures RemoveThink(ThinkOpen + body + ThinkClose + rest) == RemoveThink(rest)
  {
    var s := ThinkOpen + body + ThinkClose + rest;
    var k := |ThinkOpen| + |body|;
    assert StartsWith(s, ThinkOpen) by { assert s[..|ThinkOpen|] == ThinkOpen; }
    assert OccursAt(s, ThinkClose, k) by { assert s[k..k + |ThinkClose|] == ThinkClose; }
    forall j | |ThinkOpen| <= j < k
      ensures !OccursAt(s, ThinkClose, j)
    {
      assert s[j] == body[j - |ThinkOpen|];
      if j + |ThinkClose| <= |s| {
        assert s[j..j + |ThinkClose|][0] == s[j];
      }
    }
    var found := FindFrom(s, ThinkClose, |ThinkOpen|);
    assert found == Some(k);
    assert s[k + |ThinkClose|..] == rest;
  }

  /** A reply made of one think block and an answer that has neither '<' nor the
      marker comes back as the stripped answer. */
  lemma CleanThinkThenAnswer(body: string, answer: string)
    requires '<' !in body && '<' !in answer
    requires Find(answer, DoneThinking).None?
    ensures CleanLlmResponse(ThinkOpen + body + ThinkClose + answer) == Strip(answer)
  {
    RemoveThinkBlock(body, answer);
    RemoveThinkNoTag(answer);
  }

  /** A reply where the reasoning, free of '.' and '<', ends with the marker comes
      back as the stripped text after the marker. */
  lemma CleanDoneThinking(thinking: string, answer: string)
    requires '.' !in thinking && '<' !in thinking && '<' !in answer
    ensures CleanLlmResponse(thinking + DoneThinking + answer) == Strip(answer)
  {
    var s := thinking + DoneThinking + answer;
    assert '<' !in s by {
      assert forall i :: 0 <= i < |s| ==> s[i] != '<' by {
        forall i | 0 <= i < |s| ensures s[i] != '<' {
          if i < |thinking| {
            assert s[i] == thinking[i];
          } else if i < |thinking| + |DoneThinking| {
            assert s[i] == DoneThinking[i - |thinking|];
          } else {
            assert s[i] == answer[i - |thinking| - |DoneThinking|];
          }
        }
      }
    }
    RemoveThinkNoTag(s);
    var k := |thinking|;
    assert OccursAt(s, DoneThinking, k) by { assert s[k..k + |DoneThinking|] == DoneThinking; }
    forall j | 0 <= j < k
      ensures !OccursAt(s, DoneThinking, j)
    {
      assert s[j] == thinking[j];
      if j + |DoneThinking| <= |s| {
        assert s[j..j + |DoneThinking|][0] == s[j];
      }
    }
    assert Find(s, DoneThinking) == Some(k);
    assert s[k + |DoneThinking|..] == answer;
  }

  /** A reply with no '<' and no marker is only stripped. */
  lemma CleanPlain(text: string)
    requires '<' !in text
    requires Find(text, DoneThinking).None?
    ensures CleanLlmResponse(text) == Strip(text)
  {
    RemoveThinkNoTag(text);
  }

  /** The two questions asked of the index; each comes with its own prompt template. */
  datatype Prompt = OneLinerPrompt | CapabilityTagsPrompt

  /** A vector index over documents (text and id), with the dimension of its store. */
  datatype Document = Document(text: string, docId: string)
  datatype VectorIndex = VectorIndex(documents: seq<Document>, dimension: nat)

  /** The language model's reply to a query against an index under a prompt, taken
      as given. */
  type Answerer = (VectorIndex, Prompt, string) -> string

  /** `all([llm_model_name, embed_model_name])`: both variables set and non-empty. */
  predicate Configured(llmModel: Option<string>, embedModel: Option<string>) {
    llmModel.Some? && llmModel.value != "" && embedModel.Some? && embedModel.value != ""
  }

  /** The environment check of RagEngine.__init__: the model names, or the error it
      raises. */
  function LoadModels(llmModel: Option<string>, embedModel: Option<string>): (r: Result<(string, string), string>)
    ensures r.Ok? <==> Configured(llmModel, embedModel)
    ensures r.Ok? ==> r.value == (llmModel.value, embedModel.value)
    ensures r.Err? ==> r.error == ConfigError
  {
    if llmModel.Some? && llmModel.value != "" && embedModel.Some? && embedModel.value != "" then
      Ok((llmModel.value, embedModel.value))
    else Err(ConfigError)
  }

  class RagEngine {
    /** The models set globally when the engine starts. */
    var llmModel: string
    var embedModel: string
    var index: Option<VectorIndex>

    /** Only reached once the environment check has passed; see Start. */
    constructor(llmModel: string, embedModel: string)
      ensures this.llmModel == llmModel && this.embedModel == embedModel
      ensures index.None?
    {
      this.llmModel := llmModel;
      this.embedModel := embedModel;
      index := None;
    }

    /** RagEngine.build_index_from_text: a fresh index holding the one document,
        replacing any earlier one. */
    method BuildIndexFromText(text: string, postId: string)
      modifies this
      ensures index == Some(VectorIndex([Document(text, postId)], IndexDimension))
      ensures llmModel == old(llmModel) && embedModel == old(embedModel)
    {
      index := Some(VectorIndex([Document(text, postId)], IndexDimension));
    }

    /** RagEngine.get_one_liner_summary: nothing before an index is built, otherwise
        the cleaned reply to the fixed summary query. */
    method GetOneLinerSummary(answer: Answerer) returns (r: Option<string>)
      ensures r.None? <==> index.None?
      ensures r.Some? ==> r.value == CleanLlmResponse(answer(index.value, OneLinerPrompt, SummarizeQuery))
      ensures r.Some? ==> Stripped(r.value)
    {
      if index.None? {
        return None;
      }
      r := Some(CleanLlmResponse(answer(index.value, OneLinerPrompt, SummarizeQuery)));
    }

    /** RagEngine.get_capability_tags: nothing before an index is built, otherwise
        the cleaned reply to the summary itself under the tagging prompt. */
    method GetCapabilityTags(answer: Answerer, summaryText: string) returns (r: Option<string>)
      ensures r.None? <==> index.None?
      ensures r.Some? ==> r.value == CleanLlmResponse(answer(index.value, CapabilityTagsPrompt, summaryText))
      ensures r.Some? ==> Stripped(r.value)
    {
      if index.None? {
        return None;
      }
      r := Some(CleanLlmResponse(answer(index.value, CapabilityTagsPrompt, summaryText)));
    }
  }

  /** RagEngine(): the environment check, then an engine with no index. */
  method Start(llmModel: Option<string>, embedModel: Option<string>) returns (r: Result<RagEngine, string>)
    ensures r.Ok? <==> Configured(llmModel, embedModel)
    ensures r.Err? ==> r.error == ConfigError
    ensures r.Ok? ==> fresh(r.value) && r.value.index.None?
    ensures r.Ok? ==> r.value.llmModel == llmModel.value && r.value.embedModel == embedModel.value
  {
    var models := LoadModels(llmModel, embedModel);
    if models.Err? {
      return Err(models.error);
    }
    var engine := new RagEngine(models.value.0, models.value.1);
    r := Ok(engine);
  }
}
