/** The model catalog endpoint, `GET /api/models` (app/api/models/route.ts). The delay is
    left out; what remains is a constant list inside an envelope. */
module ModelsRoute {
  import opened Types

  /** `{success, data}`. */
  datatype ModelsEnvelope = ModelsEnvelope(success: bool, data: seq<AIModel>)

  /** `mockModels`: six entries, the first `gpt-4-turbo` by OpenAI, every one capped at 4096 tokens. */
  function MockModels(): (ms: seq<AIModel>)
    ensures |ms| == 6
    ensures ms[0].id == "gpt-4-turbo" && ms[0].provider == "OpenAI"
    ensures forall i :: 0 <= i < |ms| ==> ms[i].maxTokens == 4096
  {
    [ AIModel("gpt-4-turbo", "GPT-4 Turbo", "OpenAI", "Most capable GPT-4 model with 128K context window", 4096),
      AIModel("gpt-4", "GPT-4", "OpenAI", "High intelligence model for complex tasks", 4096),
      AIModel("claude-3-opus", "Claude 3 Opus", "Anthropic", "Most powerful Claude model for complex analysis", 4096),
      AIModel("claude-3-sonnet", "Claude 3 Sonnet", "Anthropic", "Balanced performance and speed", 4096),
      AIModel("llama-3-70b", "Llama 3 70B", "Meta", "Open-source large language model", 4096),
      AIModel("mistral-large", "Mistral Large", "Mistral AI", "Powerful multilingual model", 4096)
    ]
  }

  /** No two catalog entries share an id. */
  lemma ModelIdsDistinct()
    ensures forall i, j :: 0 <= i < j < |MockModels()| ==> MockModels()[i].id != MockModels()[j].id
  {
    var ms := MockModels();
    assert ms[0].id[3] == '-' && ms[1].id[3] == '-' && ms[2].id[3] == 'u' && ms[3].id[3] == 'u';
    assert ms[4].id[0] == 'l' && ms[5].id[0] == 'm';
    assert |ms[0].id| == 11 && |ms[1].id| == 5 && |ms[2].id| == 13 && |ms[3].id| == 15;
  }

  /** `GET`: always a success carrying the whole catalog. */
  function Get(): (e: ModelsEnvelope)
    ensures e.success && e.data == MockModels()
  {
    ModelsEnvelope(true, MockModels())
  }
}
