/** The sidebar's two pieces of logic: the shape check on a hand-entered
    Replicate API token, and the mapping of the selected model name to the
    identifier sent to Replicate. */
module Settings {
  import opened Text

  const TokenPrefix: string := "r8_"
  const TokenLength: nat := 40

  /** A hand-entered token looks valid when it starts with `r8_` and is
      exactly 40 characters long. Nothing else about it is checked. */
  function IsWellFormedToken(token: string): (ok: bool)
    ensures ok <==> |token| == TokenLength && token[0] == 'r' && token[1] == '8' && token[2] == '_'
  {
    StartsWith(token, TokenPrefix) && |token| == TokenLength
  }

  /** Equivalently: the prefix followed by any 37 characters. */
  lemma WellFormedTokenIsPrefixPlus37(token: string)
    ensures IsWellFormedToken(token) <==> exists rest: string :: |rest| == 37 && token == TokenPrefix + rest
  {
  }

  /** The three models offered in the selection box, in their order there. */
  const ModelChoices: seq<string> := [LlamaChoice, MistralChoice, GemmaChoice]

  const LlamaChoice: string := "meta/meta-llama-3-70b-instruct"
  const MistralChoice: string := "mistralai/mistral-7b-instruct-v0.2"
  const GemmaChoice: string := "google-deepmind/gemma-2b-it"
  const GemmaVersion: string := "dff94eaf770e1fc211e425a50b51baa8e4cac6c39ef074681f9e39d778773626"
  const GemmaVersionedId: string := GemmaChoice + ":" + GemmaVersion

  /** The gemma entry is pinned to one version; every other name is sent as
      chosen. The identifier sent always begins with the name chosen. */
  function ResolveModel(choice: string): (id: string)
    ensures choice == GemmaChoice ==> id == GemmaVersionedId
    ensures choice != GemmaChoice ==> id == choice
    ensures StartsWith(id, choice)
  {
    if choice == GemmaChoice then GemmaVersionedId else choice
  }

  /** A resolved identifier resolves to itself: the pinned gemma version is
      not pinned a second time. */
  lemma ResolveModelIsStable(choice: string)
    ensures ResolveModel(ResolveModel(choice)) == ResolveModel(choice)
  {
  }

  /** Any two different entries of the selection box resolve to different
      identifiers: the first two differ in their second character, and
      only the gemma identifier begins with `g`. */
  lemma ModelChoicesResolveDistinctly()
    ensures forall i, j :: 0 <= i < j < |ModelChoices| ==> ResolveModel(ModelChoices[i]) != ResolveModel(ModelChoices[j])
  {
    forall i, j | 0 <= i < j < |ModelChoices|
      ensures ResolveModel(ModelChoices[i]) != ResolveModel(ModelChoices[j])
    {
      var a, b := ResolveModel(ModelChoices[i]), ResolveModel(ModelChoices[j]);
      if j == 2 {
        assert b[0] == 'g' && a[0] == 'm';
      } else {
        assert a[1] == 'e' && b[1] == 'i';
      }
    }
  }
}
