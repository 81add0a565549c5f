/** The browser-side API-key settings: the stored keys and the format
    check `validateApiKey` applies to each of them. */
module ApiKeys {
  import opened Text

  /** `StoredApiKeys`: every key is optional. */
  datatype StoredApiKeys = StoredApiKeys(
    openai: Option<string>,
    google: Option<string>,
    elevenlabs: Option<string>,
    voiceId: Option<string>)

  const NoKeys := StoredApiKeys(None, None, None, None)

  /** `keyof StoredApiKeys`. */
  datatype KeyField = OpenAI | Google | ElevenLabs | VoiceId

  /** `validateApiKey`: a blank key is never valid; otherwise each field
      has its own prefix or length rule. */
  function ValidateApiKey(key: string, field: KeyField): bool {
    if IsBlank(key) then false
    else match field
      case OpenAI => StartsWith(key, "sk-")
      case Google => StartsWith(key, "AIza") || |key| > 30
      case ElevenLabs => StartsWith(key, "sk_") || |key| > 20
      case VoiceId => |key| > 10
  }

  /** Some character of the key is not whitespace. */
  predicate HasText(key: string) {
    exists i :: 0 <= i < |key| && !IsWhitespace(key[i])
  }

  /** A key that starts with a prefix holding a non-whitespace character
      is not blank. */
  lemma PrefixNotBlank(key: string, prefix: string)
    requires StartsWith(key, prefix) && prefix != [] && !IsWhitespace(prefix[0])
    ensures !IsBlank(key)
  {
    BlankIffAllWhitespace(key);
    assert key[0] == prefix[0];
  }

  lemma BlankIffNoText(key: string)
    ensures IsBlank(key) <==> !HasText(key)
  {
    BlankIffAllWhitespace(key);
  }

  /** An OpenAI key is valid exactly when it starts with `sk-`. */
  lemma OpenAIValid(key: string)
    ensures ValidateApiKey(key, OpenAI) <==> StartsWith(key, "sk-")
  {
    if StartsWith(key, "sk-") {
      PrefixNotBlank(key, "sk-");
    }
  }

  /** A Google key is valid exactly when it starts with `AIza`, or is
      longer than 30 characters and not all whitespace. */
  lemma GoogleValid(key: string)
    ensures ValidateApiKey(key, Google) <==> StartsWith(key, "AIza") || (|key| > 30 && HasText(key))
  {
    BlankIffNoText(key);
    if StartsWith(key, "AIza") {
      PrefixNotBlank(key, "AIza");
    }
  }

  /** An ElevenLabs key is valid exactly when it starts with `sk_`, or is
      longer than 20 characters and not all whitespace. */
  lemma ElevenLabsValid(key: string)
    ensures ValidateApiKey(key, ElevenLabs) <==> StartsWith(key, "sk_") || (|key| > 20 && HasText(key))
  {
    BlankIffNoText(key);
    if StartsWith(key, "sk_") {
      PrefixNotBlank(key, "sk_");
    }
  }

  /** A voice id is valid exactly when it is longer than 10 characters and
      not all whitespace. */
  lemma VoiceIdValid(key: string)
    ensures ValidateApiKey(key, VoiceId) <==> |key| > 10 && HasText(key)
  {
    BlankIffNoText(key);
  }

  /** Whatever the field, a valid key has a non-whitespace character. */
  lemma ValidHasText(key: string, field: KeyField)
    requires ValidateApiKey(key, field)
    ensures HasText(key) && key != ""
  {
    BlankIffNoText(key);
  }

  /** Thirty-one spaces pass the length rule but are not a Google key. */
  lemma SpacesNotGoogleKey()
    ensures !ValidateApiKey(seq(31, _ => ' '), Google)
  {
    var key := seq(31, _ => ' ');
    BlankIffAllWhitespace(key);
  }
}
