/** The video request form: its state, `validate`, `handleSubmit`,
    `handleKeysUpdated` and the checks `handleFileChange` applies to a
    reference image or a BGM file.  React state setters are field
    assignments; the image compressor is an oracle result. */
module FormState {
  import opened Text
  import opened ApiKeys

  datatype VoiceProvider = ElevenLabsVoice | Voicevox

  /** The keys of the form's `errors` record. */
  datatype ErrorField = InputField | ApiKeysField | ProviderField | ReferenceImageField | BgmField

  /** A chosen file: its MIME type and its size in bytes. */
  datatype File = File(mimeType: string, size: nat)

  datatype FileKind = ImageFile | BgmFile

  /** `VideoFormData`. */
  datatype VideoFormData = VideoFormData(
    input: string,
    provider: VoiceProvider,
    voiceId: Option<string>,
    apiKeys: StoredApiKeys,
    referenceImage: Option<File>,
    bgm: Option<File>)

  /** The 2 MiB upload limit for either file. */
  const MaxUploadBytes: nat := 2 * 1024 * 1024

  const InputMissing := "URL または テキストを入力してください"
  const OpenAIMissing := "OpenAI API Keyが設定されていません"
  const GoogleMissing := "Google API Keyが設定されていません"
  const ElevenLabsMissing := "ElevenLabs API Keyが設定されていません"
  const NotAnImage := "画像ファイルを選択してください"
  const ImageTooLarge := "ファイルサイズは2MB以下にしてください（圧縮後も超過）"
  const ImageFailed := "画像の処理中にエラーが発生しました"
  const NotAudio := "音声ファイルを選択してください"
  const BgmTooLarge := "ファイルサイズは2MB以下にしてください（Vercel制限）"

  /** The errors `validate` records, each field on its own: a blank input;
      a missing key, the Google message winning when both keys are
      missing; and a missing ElevenLabs key for the ElevenLabs voice. */
  function FormErrors(input: string, keys: StoredApiKeys, provider: VoiceProvider): map<ErrorField, string> {
    var inputErrors := if IsBlank(input) then map[InputField := InputMissing] else map[];
    var keyErrors :=
      if !Present(keys.google) then map[ApiKeysField := GoogleMissing]
      else if !Present(keys.openai) then map[ApiKeysField := OpenAIMissing]
      else map[];
    var providerErrors :=
      if provider == ElevenLabsVoice && !Present(keys.elevenlabs) then map[ProviderField := ElevenLabsMissing] else map[];
    inputErrors + keyErrors + providerErrors
  }

  /** The form is valid exactly when the input has text, both the OpenAI
      and the Google key are set, and the ElevenLabs voice has its key. */
  lemma FormErrorsEmpty(input: string, keys: StoredApiKeys, provider: VoiceProvider)
    ensures FormErrors(input, keys, provider) == map[]
      <==> !IsBlank(input) && Present(keys.openai) && Present(keys.google)
           && (provider == ElevenLabsVoice ==> Present(keys.elevenlabs))
  {
    var e := FormErrors(input, keys, provider);
    if IsBlank(input) {
      assert InputField in e;
    } else if !Present(keys.openai) || !Present(keys.google) {
      assert ApiKeysField in e;
    } else if provider == ElevenLabsVoice && !Present(keys.elevenlabs) {
      assert ProviderField in e;
    }
  }

  /** With both keys missing the form shows the Google message; VOICEVOX
      never needs an ElevenLabs key. */
  lemma FormErrorsMessages(input: string, keys: StoredApiKeys)
    ensures !Present(keys.openai) && !Present(keys.google) ==>
      FormErrors(input, keys, ElevenLabsVoice)[ApiKeysField] == GoogleMissing
    ensures ProviderField !in FormErrors(input, keys, Voicevox)
    ensures !Present(keys.openai) && Present(keys.google) ==>
      FormErrors(input, keys, Voicevox)[ApiKeysField] == OpenAIMissing
  {
  }

  /** The successive assignments of `validate` build `FormErrors`. */
  lemma InOrder(input: string, keys: StoredApiKeys, provider: VoiceProvider, built: map<ErrorField, string>)
    requires var e0 := if IsBlank(input) then map[InputField := InputMissing] else map[];
      var e1 := if !Present(keys.openai) then e0[ApiKeysField := OpenAIMissing] else e0;
      var e2 := if !Present(keys.google) then e1[ApiKeysField := GoogleMissing] else e1;
      built == if provider == ElevenLabsVoice && !Present(keys.elevenlabs) then e2[ProviderField := ElevenLabsMissing] else e2
    ensures built == FormErrors(input, keys, provider)
  {
  }

  /** Whether `handleFileChange` accepts a BGM file. */
  predicate BgmAcceptable(f: File) {
    StartsWith(f.mimeType, "audio/") && f.size <= MaxUploadBytes
  }

  /** The image kept for an image file: the file itself up to 2 MiB, the
      compressor's result above that, and nothing when the type is wrong,
      the compressor fails or its result is still too large. */
  function ImageKept(f: File, compressed: Outcome<File>): Option<File> {
    if !StartsWith(f.mimeType, "image/") then None
    else if f.size <= MaxUploadBytes then Some(f)
    else if compressed.Fail? || compressed.value.size > MaxUploadBytes then None
    else Some(compressed.value)
  }

  /** The message a rejected image sets: the wrong type first, then a
      failed compression, then a result still above 2 MiB. */
  function ImageRejection(f: File, compressed: Outcome<File>): (r: string)
    requires ImageKept(f, compressed).None?
    ensures r == NotAnImage <==> !StartsWith(f.mimeType, "image/")
    ensures r == ImageFailed <==> StartsWith(f.mimeType, "image/") && f.size > MaxUploadBytes && compressed.Fail?
    ensures r == NotAnImage || r == ImageFailed || r == ImageTooLarge
  {
    if !StartsWith(f.mimeType, "image/") then NotAnImage
    else if compressed.Fail? then ImageFailed
    else ImageTooLarge
  }

  /** The message a rejected music file sets: the wrong type before the
      size. */
  function BgmRejection(f: File): (r: string)
    requires !BgmAcceptable(f)
    ensures r == NotAudio <==> !StartsWith(f.mimeType, "audio/")
    ensures r == BgmTooLarge <==> StartsWith(f.mimeType, "audio/") && f.size > MaxUploadBytes
  {
    if !StartsWith(f.mimeType, "audio/") then NotAudio else BgmTooLarge
  }

  /** A kept image is an image file within the limit. */
  lemma ImageKeptWithinLimit(f: File, compressed: Outcome<File>)
    ensures ImageKept(f, compressed).Some? ==>
      StartsWith(f.mimeType, "image/") && ImageKept(f, compressed).value.size <= MaxUploadBytes
    ensures StartsWith(f.mimeType, "image/") && f.size <= MaxUploadBytes ==> ImageKept(f, compressed) == Some(f)
  {
  }

  /** The body of `validate` up to `setErrors`: the record filled by
      successive field assignments, a later one overwriting an earlier. */
  method RecordErrors(input: string, keys: StoredApiKeys, provider: VoiceProvider) returns (newErrors: map<ErrorField, string>)
    ensures newErrors == FormErrors(input, keys, provider)
  {
    newErrors := map[];
    if IsBlank(input) {
      newErrors := newErrors[InputField := InputMissing];
    }
    if !Present(keys.openai) {
      newErrors := newErrors[ApiKeysField := OpenAIMissing];
    }
    if !Present(keys.google) {
      newErrors := newErrors[ApiKeysField := GoogleMissing];
    }
    if provider == ElevenLabsVoice && !Present(keys.elevenlabs) {
      newErrors := newErrors[ProviderField := ElevenLabsMissing];
    }
    InOrder(input, keys, provider, newErrors);
  }

  lemma NoKeysEmpty<K, V>(m: map<K, V>)
    ensures |m.Keys| == 0 <==> m == map[]
  {
    if |m.Keys| == 0 {
      assert m.Keys == {};
    }
  }

  class VideoForm {
    var apiKeys: StoredApiKeys
    var input: string
    var provider: VoiceProvider
    var voiceId: string
    var referenceImage: Option<File>
    var bgm: Option<File>
    var errors: map<ErrorField, string>

    /** The initial state of the component. */
    constructor()
      ensures apiKeys == NoKeys && input == "" && provider == ElevenLabsVoice && voiceId == ""
      ensures referenceImage == None && bgm == None && errors == map[]
    {
      apiKeys := NoKeys;
      input := "";
      provider := ElevenLabsVoice;
      voiceId := "";
      referenceImage := None;
      bgm := None;
      errors := map[];
    }

    /** `handleKeysUpdated`, and the mount effect with the stored keys:
        the keys are taken and a set voice id fills the voice field. */
    method KeysUpdated(keys: StoredApiKeys)
      modifies this
      ensures apiKeys == keys
      ensures voiceId == if Present(keys.voiceId) then keys.voiceId.value else old(voiceId)
      ensures input == old(input) && provider == old(provider) && errors == old(errors)
      ensures referenceImage == old(referenceImage) && bgm == old(bgm)
    {
      apiKeys := keys;
      if Present(keys.voiceId) {
        voiceId := keys.voiceId.value;
      }
    }

    /** `validate`: the error record is rebuilt by successive assignments,
        and the form is valid when it stays empty. */
    method Validate() returns (ok: bool)
      modifies this
      ensures errors == FormErrors(input, apiKeys, provider)
      ensures ok <==> errors == map[]
      ensures apiKeys == old(apiKeys) && input == old(input) && provider == old(provider) && voiceId == old(voiceId)
      ensures referenceImage == old(referenceImage) && bgm == old(bgm)
    {
      var newErrors := RecordErrors(input, apiKeys, provider);
      errors := newErrors;
      ok := |newErrors.Keys| == 0;
      NoKeysEmpty(newErrors);
    }

    /** `handleSubmit`: the form data is handed on only when validation
        passes, with an empty voice id as absent. */
    method HandleSubmit() returns (submitted: Option<VideoFormData>)
      modifies this
      ensures errors == FormErrors(input, apiKeys, provider)
      ensures submitted.Some? <==> !IsBlank(input) && Present(apiKeys.openai) && Present(apiKeys.google)
                                   && (provider == ElevenLabsVoice ==> Present(apiKeys.elevenlabs))
      ensures submitted.Some? ==>
        submitted.value == VideoFormData(input, provider, if voiceId == "" then None else Some(voiceId), apiKeys, referenceImage, bgm)
      ensures apiKeys == old(apiKeys) && input == old(input) && provider == old(provider) && voiceId == old(voiceId)
      ensures referenceImage == old(referenceImage) && bgm == old(bgm)
    {
      var ok := Validate();
      FormErrorsEmpty(input, apiKeys, provider);
      if !ok {
        return None;
      }
      submitted := Some(VideoFormData(input, provider, if voiceId == "" then None else Some(voiceId), apiKeys, referenceImage, bgm));
    }

    /** `handleFileChange` for a chosen file (`None` when the picker
        returned none); `compressed` is what the compressor yields for an
        image above 2 MiB.  An accepted file clears only its own error; a
        rejected one sets only its own error, to the message of the first
        check it fails. */
    method HandleFileChange(kind: FileKind, file: Option<File>, compressed: Outcome<File>)
      modifies this
      ensures file.None? ==> errors == old(errors) && referenceImage == old(referenceImage) && bgm == old(bgm)
      ensures file.Some? && kind == BgmFile ==>
        referenceImage == old(referenceImage)
        && (BgmAcceptable(file.value) ==> bgm == file && errors == old(errors) - {BgmField})
        && (!BgmAcceptable(file.value) ==> bgm == old(bgm) && errors == old(errors)[BgmField := BgmRejection(file.value)])
      ensures file.Some? && kind == ImageFile ==>
        bgm == old(bgm)
        && (ImageKept(file.value, compressed).Some? ==>
              referenceImage == ImageKept(file.value, compressed) && errors == old(errors) - {ReferenceImageField})
        && (ImageKept(file.value, compressed).None? ==>
              referenceImage == old(referenceImage)
              && errors == old(errors)[ReferenceImageField := ImageRejection(file.value, compressed)])
      ensures apiKeys == old(apiKeys) && input == old(input) && provider == old(provider) && voiceId == old(voiceId)
    {
      if file.None? {
        return;
      }
      var f := file.value;
      if kind == ImageFile {
        if !StartsWith(f.mimeType, "image/") {
          errors := errors[ReferenceImageField := NotAnImage];
          return;
        }
        var processed := f;
        if f.size > MaxUploadBytes {
          if compressed.Fail? {
            errors := errors[ReferenceImageField := ImageFailed];
            return;
          }
          processed := compressed.value;
        }
        if processed.size > MaxUploadBytes {
          errors := errors[ReferenceImageField := ImageTooLarge];
          return;
        }
        referenceImage := Some(processed);
        errors := errors - {ReferenceImageField};
      } else {
        if !StartsWith(f.mimeType, "audio/") {
          errors := errors[BgmField := NotAudio];
          return;
        }
        if f.size > MaxUploadBytes {
          errors := errors[BgmField := BgmTooLarge];
          return;
        }
        bgm := Some(f);
        errors := errors - {BgmField};
      }
    }
  }
}
