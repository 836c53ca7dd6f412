/** The interactive prompts (`select`, `confirm`, `text` of the prompt library) as a
    script of answers the user will give, consumed one per question. */
module Prompts {
  import opened Wrappers

  class Prompter<T> {
    /** The answers still to come, in order. */
    var script: seq<Answer<T>>

    constructor (script: seq<Answer<T>>)
      ensures this.script == script
    {
      this.script := script;
    }

    /** Ask one question. `None` means the user never answers: the program waits forever. */
    method Ask() returns (a: Option<Answer<T>>)
      modifies this
      ensures old(script) == [] ==> a == None && script == []
      ensures old(script) != [] ==> a == Some(old(script)[0]) && script == old(script)[1..]
    {
      if script == [] {
        return None;
      }
      a := Some(script[0]);
      script := script[1..];
    }
  }
}
