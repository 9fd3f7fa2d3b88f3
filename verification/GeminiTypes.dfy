/** The two vocabularies the Gemini adapter translates between: the items of a
    request, as far as the encoder tells them apart, and Gemini's turns. */
module GeminiTypes {
  import opened RequestTypes
  import opened Wrappers

  /** A thought signature: opaque bytes, never empty. */
  type Signature = s: string | s != "" witness "s"

  datatype Body =
    | Text(text: string)
    | Call(callId: string, name: string, arguments: Option<string>)
    | Answer(callId: string, name: string, output: string)
    | Other(kind: string, payload: string)

  datatype Part = Part(thought: bool, body: Body, signature: Option<Signature>)
  {
    /** The text field, empty for a part of another kind. */
    function Words(): string { if body.Text? then body.text else "" }

    function Sign(s: Signature): Part { this.(signature := Some(s)) }
  }

  function Plain(text: string): Part { Part(false, Text(text), None) }

  function Thought(text: string): Part { Part(true, Text(text), None) }

  // ---- Request items ------------------------------------------------------------------

  /** encrypted_content: absent, base64 of a signature, or not base64. */
  datatype Encrypted = NoSignature | Signed(signature: Signature) | NotBase64

  /** The part an extension item of this adapter carries. */
  datatype Carried = Carries(part: Part) | CarriesNothing

  datatype Input =
    | Message(role: Role, content: seq<Content>)
    | FunctionCall(callId: string, name: string, arguments: Arguments)
    | FunctionOutput(callId: string, output: Option<string>)
    | Reasoning(issuer: string, summary: string, text: string, encrypted: Encrypted)
    | ForeignItem
    | ExtensionItem(carried: Carried)
    | OtherItem
}
