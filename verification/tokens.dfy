/** The tokenizer the sliding-window chunker counts with. The real one is an
    external library chosen by model name; here it is two uninterpreted total
    functions, and nothing is assumed about how they relate (in particular no
    decode/encode round trip). */
module Tokens {

  datatype Tokenizer = Tokenizer(encode: string -> seq<int>, decode: seq<int> -> string)

  /** `count_tokens`: the length of the encoding. */
  function Count(tk: Tokenizer, s: string): nat {
    |tk.encode(s)|
  }
}
