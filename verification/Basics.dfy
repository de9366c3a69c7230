/** Vocabulary shared by all modules. */
module Basics {

  const U32_MAX := 0xFFFF_FFFF
  const U64_MAX := 0xFFFF_FFFF_FFFF_FFFF
  const WORD := U32_MAX + 1

  type u32 = x: int | 0 <= x <= U32_MAX
  type u64 = x: int | 0 <= x <= U64_MAX

  // error returns
  const EIO := -5
  const EINVAL := -22
  const ENOTTY := -25
  const ETIMEDOUT := -110

  datatype Option<+T> = None | Some(value: T)

  predicate Distinct(s: seq<nat>) {
    forall i, j :: 0 <= i < j < |s| ==> s[i] != s[j]
  }
}
