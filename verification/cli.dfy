/** The URI preparation the command line performs before resolving. */
module Cli {
  import opened Wrappers
  import opened Strings

  /** The message of the exception raised for an empty positional URI. */
  const EmptyUriError: string := "empty URI"

  /** An empty URI is an error; otherwise `http://` is prepended unless the URI
      already starts with the letters `http` (so `https://…` is kept, and so is
      a host name such as `httpbin.org`). */
  function WithScheme(uri: string): (r: Result<string, string>)
    ensures r.Failure? <==> uri == []
    ensures r.Failure? ==> r.error == EmptyUriError
    ensures r.Success? ==> StartsWith(r.value, "http") && EndsWith(r.value, uri)
    ensures StartsWith(uri, "http") ==> r == Success(uri)
    ensures r.Success? && r.value != uri ==> r.value == "http://" + uri
  {
    if uri == [] then Failure(EmptyUriError)
    else if StartsWith(uri, "http") then Success(uri)
    else Success("http://" + uri)
  }

  /** Applying the rule to its own output changes nothing. */
  lemma WithSchemeIdempotent(uri: string)
    requires WithScheme(uri).Success?
    ensures WithScheme(WithScheme(uri).value) == WithScheme(uri)
  {
  }

  lemma WithSchemeExamples()
    ensures WithScheme("example.com") == Success("http://example.com")
    ensures WithScheme("https://example.com") == Success("https://example.com")
    ensures WithScheme("httpbin.org") == Success("httpbin.org")
  {
    assert "example.com"[..4] != "http" by { assert "example.com"[..4][0] == 'e'; }
    assert WithScheme("example.com") == Success("http://" + "example.com");
    assert "http://" + "example.com" == "http://example.com";
  }
}
