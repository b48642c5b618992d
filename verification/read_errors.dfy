/** The text `readFile` returns on failure, seen from the caller's side: the
    caller only gets a string and has to tell content from error text by its
    shape. This module inverts that shape and shows where it is ambiguous. */
module ReadErrors {
  import opened Js
  import opened Fs
  import opened Catalog
  import opened Handlers

  datatype Option<T> = None | Some(value: T)

  /** The index of the first `c` in `s`, or `|s|` when there is none. */
  function IndexOf(s: string, c: char): (i: nat)
    ensures i <= |s|
    ensures i < |s| ==> s[i] == c
    ensures forall j :: 0 <= j < i ==> s[j] != c
  {
    if s == [] then 0
    else if s[0] == c then 0
    else 1 + IndexOf(s[1..], c)
  }

  /** Splits an error text into the quoted path and the message, taking the
      path to end at the first quote. */
  function ParseReadError(text: string): (r: Option<(string, string)>)
    ensures r.Some? ==> ReadErrorText(r.value.0, r.value.1) == text
    ensures r.Some? ==> '\'' !in r.value.0
  {
    var n := |ReadErrorPrefix|;
    if |text| < n || text[..n] != ReadErrorPrefix then None
    else
      var rest := text[n..];
      var i := IndexOf(rest, '\'');
      var k := |ReadErrorSeparator|;
      if i + k <= |rest| && rest[i..i + k] == ReadErrorSeparator then
        assert text == ReadErrorPrefix + rest;
        assert rest == rest[..i] + ReadErrorSeparator + rest[i + k..];
        Some((rest[..i], rest[i + k..]))
      else None
  }

  /** The error text round-trips through the parser whenever the path
      contains no quote. */
  lemma {:induction false} ParseReadErrorRoundTrip(p: string, m: string)
    requires '\'' !in p
    ensures ParseReadError(ReadErrorText(p, m)) == Some((p, m))
  {
    var text := ReadErrorText(p, m);
    var n := |ReadErrorPrefix|;
    assert text[..n] == ReadErrorPrefix;
    var rest := text[n..];
    assert rest == p + ReadErrorSeparator + m;
    var i := IndexOf(rest, '\'');
    assert rest[|p|] == '\'';
    assert forall j :: 0 <= j < |p| ==> rest[j] == p[j];
    assert i == |p|;
    assert rest[i..i + |ReadErrorSeparator|] == ReadErrorSeparator;
    assert rest[..i] == p;
    assert rest[i + |ReadErrorSeparator|..] == m;
  }

  /** A path containing the separator makes the shape ambiguous: the path
      `a': b` with message `m` renders to the same text as the shorter path
      `a` with message `b': m`. */
  lemma QuotedPathIsAmbiguous(a: string, b: string, m: string)
    ensures ReadErrorText(a + ReadErrorSeparator + b, m) == ReadErrorText(a, b + ReadErrorSeparator + m)
    ensures a + ReadErrorSeparator + b != a
  {
  }

  /** In particular the parser, which ends the path at the first quote,
      reads such a text as the shorter path. */
  lemma QuotedPathParsesShort(a: string, b: string, m: string)
    requires '\'' !in a
    ensures ParseReadError(ReadErrorText(a + ReadErrorSeparator + b, m)) == Some((a, b + ReadErrorSeparator + m))
  {
    QuotedPathIsAmbiguous(a, b, m);
    ParseReadErrorRoundTrip(a, b + ReadErrorSeparator + m);
  }

  /** Every failed `readFile` on a quote-free path yields text the parser
      recognises, recovering the path and the underlying message. */
  lemma ReadFailureParses(fs: FileSystem, p: string, args: Args, oracle: Oracle)
    requires FilePathParam in args && args[FilePathParam] == p && '\'' !in p
    requires !ValidPath(p) || oracle.read.Fail? || p !in fs
    ensures ParseReadError(ReadFile(fs, args, oracle).result.text) == Some((p, ReadFailureMessage(p, oracle.read)))
  {
    ParseReadErrorRoundTrip(p, ReadFailureMessage(p, oracle.read));
  }

  /** Errors-as-data cannot be told apart from data: a file whose content
      happens to be an error text reads exactly like a failed read. */
  lemma ContentMimicsFailure(fs: FileSystem, p: string, args: Args, message: string, code: string)
    requires FilePathParam in args && args[FilePathParam] == p
    requires ValidPath(p) && p in fs && fs[p] == ReadErrorText(p, message)
    ensures ReadFile(fs, args, Oracle(Clear, Clear, Clear))
        == ReadFile(fs, args, Oracle(Clear, Fail(FsError(code, message)), Clear))
  {
  }
}
