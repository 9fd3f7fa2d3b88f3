/** What a provider's request encoder tells apart in the items of a request. */
module RequestTypes {
  datatype Role = UserRole | AssistantRole | SystemRole | DeveloperRole | OtherRole(name: string)
  {
    predicate Instructs() { SystemRole? || DeveloperRole? }
  }

  /** A content part: text of any flavour and refusals, media that resolves,
      or a type the provider does not read, left out when another one owns it. */
  datatype Content =
    | Spoken(text: string)
    | Medium(kind: string, payload: string)
    | Unreadable(foreign: bool)

  /** A call's arguments: blank text, a JSON object, or neither. */
  datatype Arguments = NoArguments | Object(json: string) | NotObject

  datatype Why = BadContent(part: nat) | WordlessInstruction(part: nat) | UnknownRole | BadArguments
               | NoSuchCall | BadOutput | BadSignature | BadExtension | Unsupported

  datatype Result<+T> = Ok(value: T) | Refused(item: nat, why: Why)
}
