// Token counts, and what larger counts add to smaller ones.
module TokenUsage {
  datatype Usage = Usage(requests: nat, input: nat, output: nat, cache: nat) {
    predicate Empty() {
      input + output + cache <= 0
    }

    function Plus(u: Usage): Usage {
      Usage(requests + u.requests, input + u.input, output + u.output, cache + u.cache)
    }
  }

  const Requests: Usage -> nat := (u: Usage) => u.requests
  const Input: Usage -> nat := (u: Usage) => u.input
  const Output: Usage -> nat := (u: Usage) => u.output
  const Cache: Usage -> nat := (u: Usage) => u.cache

  const NOTHING: Usage := Usage(0, 0, 0, 0)

  /** What a count that went up adds; one that did not adds nothing. */
  function Growth(previous: nat, next: nat): nat {
    if next > previous then next - previous else 0
  }
}
