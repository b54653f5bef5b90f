/**
 * Tenant-id extraction from the credential's authority URI
 * (chaosazure/cli/runner.py:53, `cred.auth_uri.split('/')[3]`).
 *
 * `Split` models Python's `str.split(sep)` with an explicit one-character
 * separator: the string is cut at every separator, empty pieces are kept,
 * and the result always has one piece more than there are separators.
 */
module Authority {
  import opened Wrappers

  /** The number of times `c` occurs in `s`. */
  function Occurrences(s: string, c: char): nat
  {
    if s == [] then 0 else (if s[0] == c then 1 else 0) + Occurrences(s[1..], c)
  }

  /** Glues the pieces back together with `sep` between neighbours. */
  function Join(parts: seq<string>, sep: char): string
    requires |parts| >= 1
  {
    if |parts| == 1 then parts[0] else parts[0] + [sep] + Join(parts[1..], sep)
  }

  /** True when no piece contains the separator. */
  predicate SeparatorFree(parts: seq<string>, sep: char)
  {
    forall i :: 0 <= i < |parts| ==> sep !in parts[i]
  }

  /** `s.split(sep)`: the separator-free pieces between separators, in order. */
  function Split(s: string, sep: char): (parts: seq<string>)
    ensures |parts| >= 1
    ensures SeparatorFree(parts, sep)
    ensures Join(parts, sep) == s
    decreases |s|
  {
    if s == [] then
      [""]
    else
      var rest := Split(s[1..], sep);
      if s[0] == sep then
        [""] + rest
      else
        assert Join([[s[0]] + rest[0]] + rest[1..], sep) == [s[0]] + Join(rest, sep) by {
          JoinExtendFirst(s[0], rest, sep);
        }
        [[s[0]] + rest[0]] + rest[1..]
  }

  /** There is one piece more than there are separators. */
  lemma {:induction false} SplitCount(s: string, sep: char)
    ensures |Split(s, sep)| == Occurrences(s, sep) + 1
    decreases |s|
  {
    if s != [] {
      SplitCount(s[1..], sep);
    }
  }

  /** Prefixing the first piece prefixes the joined string. */
  lemma JoinExtendFirst(c: char, parts: seq<string>, sep: char)
    requires |parts| >= 1
    ensures Join([[c] + parts[0]] + parts[1..], sep) == [c] + Join(parts, sep)
  {
  }

  /**
   * `Split` is the only way to cut `s` into separator-free pieces: any such
   * cutting that joins back to `s` is `Split(s, sep)`.
   */
  lemma {:induction false} SplitUnique(parts: seq<string>, s: string, sep: char)
    requires |parts| >= 1
    requires SeparatorFree(parts, sep)
    requires Join(parts, sep) == s
    ensures parts == Split(s, sep)
    decreases |s|, |parts[0]|
  {
    if |parts[0]| == 0 {
      if |parts| == 1 {
        assert s == [];
      } else {
        assert s == [sep] + Join(parts[1..], sep);
        assert s[1..] == Join(parts[1..], sep);
        assert SeparatorFree(parts[1..], sep) by {
          forall i | 0 <= i < |parts[1..]| ensures sep !in parts[1..][i] {
            assert parts[1..][i] == parts[i + 1];
          }
        }
        SplitUnique(parts[1..], s[1..], sep);
        assert parts == [""] + parts[1..];
      }
    } else {
      var c := parts[0][0];
      var shorter := [parts[0][1..]] + parts[1..];
      assert parts[0] == [c] + parts[0][1..];
      assert sep !in parts[0];
      assert c != sep;
      assert shorter[1..] == parts[1..];
      assert parts == [[c] + shorter[0]] + shorter[1..];
      JoinExtendFirst(c, shorter, sep);
      assert s == [c] + Join(shorter, sep);
      assert s[1..] == Join(shorter, sep);
      assert SeparatorFree(shorter, sep) by {
        forall i | 0 <= i < |shorter| ensures sep !in shorter[i] {
          if i == 0 {
            assert forall x :: x in parts[0][1..] ==> x in parts[0];
          } else {
            assert shorter[i] == parts[i];
          }
        }
      }
      SplitUnique(shorter, s[1..], sep);
    }
  }

  /**
   * The tenant id: the fourth `/`-separated piece of the authority URI.
   * Python raises `IndexError` when there are fewer than four pieces; that
   * is the `None` case.
   */
  function TenantId(authUri: string): (r: Option<string>)
    ensures r.Some? ==> '/' !in r.value
  {
    var parts := Split(authUri, '/');
    if |parts| >= 4 then Some(parts[3]) else None
  }

  /** The tenant id exists exactly when the URI holds at least three `/`. */
  lemma TenantIdDefined(authUri: string)
    ensures TenantId(authUri).Some? <==> Occurrences(authUri, '/') >= 3
  {
    SplitCount(authUri, '/');
  }

  /** A separator-free leading piece followed by a separator is split off first. */
  lemma SplitLeadingPiece(a: string, s: string, sep: char)
    requires sep !in a
    ensures Split(a + [sep] + s, sep) == [a] + Split(s, sep)
  {
    var parts := [a] + Split(s, sep);
    assert parts[1..] == Split(s, sep);
    assert SeparatorFree(parts, sep) by {
      forall i | 1 <= i < |parts| ensures sep !in parts[i] {
        assert parts[i] == Split(s, sep)[i - 1];
      }
    }
    SplitUnique(parts, a + [sep] + s, sep);
  }

  /** A separator-free piece that ends the string, or ends at a separator, is the first piece. */
  lemma SplitFirstPiece(t: string, rest: string, sep: char)
    requires sep !in t
    requires rest == [] || rest[0] == sep
    ensures Split(t + rest, sep)[0] == t
  {
    if rest == [] {
      assert t + rest == t;
      SplitUnique([t], t, sep);
    } else {
      assert t + rest == t + [sep] + rest[1..];
      SplitLeadingPiece(t, rest[1..], sep);
    }
  }

  /**
   * For a URI of the shape `a/b/c/t` followed by nothing or by a further
   * `/`-led remainder, the tenant id is exactly `t`.
   */
  lemma TenantOfShape(a: string, b: string, c: string, t: string, rest: string)
    requires '/' !in a && '/' !in b && '/' !in c && '/' !in t
    requires rest == [] || rest[0] == '/'
    ensures TenantId(a + "/" + b + "/" + c + "/" + t + rest) == Some(t)
  {
    assert a + "/" + b + "/" + c + "/" + t + rest == a + "/" + b + "/" + c + "/" + (t + rest);
    SplitThreeLeading(a, b, c, t + rest);
    SplitFirstPiece(t, rest, '/');
  }

  /** Three slash-free leading pieces, each followed by `/`, are the first three pieces. */
  lemma SplitThreeLeading(a: string, b: string, c: string, u: string)
    requires '/' !in a && '/' !in b && '/' !in c
    ensures Split(a + "/" + b + "/" + c + "/" + u, '/') == [a, b, c] + Split(u, '/')
  {
    var third := c + "/" + u;
    var second := b + "/" + third;
    assert a + "/" + b + "/" + c + "/" + u == a + "/" + second;
    SplitLeadingPiece(a, second, '/');
    SplitLeadingPiece(b, third, '/');
    SplitLeadingPiece(c, u, '/');
  }

  /**
   * The example authority: the tenant of `https://login.example.com/TENANT123/oauth2`,
   * written here as the concatenation of its pieces around each `/`.
   */
  lemma TenantIdExample()
    ensures TenantId("https:" + "/" + "" + "/" + "login.example.com" + "/" + "TENANT123" + "/oauth2")
         == Some("TENANT123")
  {
    assert '/' !in "https:" && '/' !in "login.example.com" && '/' !in "TENANT123";
    TenantOfShape("https:", "", "login.example.com", "TENANT123", "/oauth2");
  }
}
