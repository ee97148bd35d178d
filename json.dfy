/** The JSON mapping between beans and strings (Hutool's JSONUtil), kept abstract. */
module Json {
  import opened StrUtil

  /** `JSONUtil.toJsonStr` and `JSONUtil.toBean` for one bean type, supplied by the caller. */
  datatype Codec<!T> = Codec(encode: T -> string, decode: string -> T)

  /** What a JSON mapper guarantees: a bean's text is never blank (it is at least "{}") and
      decoding that text gives the bean back. */
  ghost predicate Faithful<T(!new)>(c: Codec<T>)
  {
    forall x :: !IsBlank(c.encode(x)) && c.decode(c.encode(x)) == x
  }
}
