/** JSON-RPC identifiers (include/cppmcp/common.hpp) and protocol constants. */
module RequestIds {
  datatype RequestId = NullId | IntId(num: int) | StrId(str: string)

  const METHOD_INITIALIZE := "initialize"
  const VERSION_2025_06_18 := "2025-06-18"
  const VERSION_2025_03_26 := "2025-03-26"

  const PARSE_ERROR := -32700
  const INVALID_REQUEST := -32600
  const METHOD_NOT_FOUND := -32601
  const INVALID_PARAMS := -32602
  const INTERNAL_ERROR := -32603

  predicate IsSupportedVersion(v: string) {
    v == VERSION_2025_06_18 || v == VERSION_2025_03_26
  }
}
