/** What the scanner gives to the parser. */
module YamlTokens {
  datatype TokenType =
    | STREAM_START | STREAM_END | VERSION_DIRECTIVE | TAG_DIRECTIVE | DOCUMENT_START | DOCUMENT_END
    | BLOCK_SEQUENCE_START | BLOCK_MAPPING_START | BLOCK_END
    | FLOW_SEQUENCE_START | FLOW_SEQUENCE_END | FLOW_MAPPING_START | FLOW_MAPPING_END
    | BLOCK_ENTRY | FLOW_ENTRY | KEY | VALUE | ALIAS | ANCHOR | TAG | SCALAR

  // `value` is an alias, anchor or scalar, or a tag handle; `suffix` belongs to a
  // tag and `prefix` to a tag directive.
  datatype Token = Token(typ: TokenType, value: string, suffix: string, prefix: string, plain: bool, major: int, minor: int)
}
