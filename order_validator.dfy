/**
 * The sort-parameter rule: `field:asc` or `field:desc` (direction in any ASCII
 * case), where the field is one of the allowed column names.
 */
module OrderValidator {
  import opened Wrappers
  import opened Text

  /** A character of `[a-zA-Z_]`; the `i` flag adds nothing, as no other character case-folds to one of these. */
  predicate IsIdentChar(c: char) {
    ('a' <= c <= 'z') || ('A' <= c <= 'Z') || c == '_'
  }

  predicate IsIdent(s: string) {
    |s| > 0 && forall k :: 0 <= k < |s| ==> IsIdentChar(s[k])
  }

  /** `asc|desc` under the `i` flag, which folds ASCII letters only. */
  predicate IsAscDesc(t: string) {
    LowerAscii(t) == "asc" || LowerAscii(t) == "desc"
  }

  /** `s` matches `^[a-zA-Z_]+:(asc|desc)$` with the `i` flag: identifier characters up to the first colon, then a direction. */
  predicate MatchesOrderPattern(s: string) {
    ':' in s && IsIdent(s[..IndexOf(s, ':')]) && IsAscDesc(s[IndexOf(s, ':') + 1..])
  }

  /** The two ways the rule can fail; with all errors collected, both can be reported. */
  datatype OrderError = PatternMismatch | FieldNotAllowed

  /** `const [campo] = value.split(":")`. */
  function OrderField(s: string): string {
    Split(s, ':')[0]
  }

  /** The pattern rule and then the custom membership rule; both run, and the value is returned unchanged. */
  function ValidateOrder(allowedFields: seq<string>, value: string): (r: Result<string, set<OrderError>>)
    ensures r.Success? <==> MatchesOrderPattern(value) && OrderField(value) in allowedFields
    ensures r.Success? ==> r.value == value
    ensures r.Failure? ==> (PatternMismatch in r.error <==> !MatchesOrderPattern(value))
    ensures r.Failure? ==> (FieldNotAllowed in r.error <==> OrderField(value) !in allowedFields)
  {
    var matches, known := MatchesOrderPattern(value), OrderField(value) in allowedFields;
    if matches && known then Success(value)
    else if matches then Failure({FieldNotAllowed})
    else if known then Failure({PatternMismatch})
    else Failure({PatternMismatch, FieldNotAllowed})
  }

  // ------------------------------------------------------------------ lemmas

  lemma IdentHasNoColon(f: string)
    requires IsIdent(f)
    ensures ':' !in f
  {
    forall k | 0 <= k < |f| ensures f[k] != ':' {
      assert IsIdentChar(f[k]);
    }
  }

  /** A direction has no colon: lower-casing keeps a colon where it is. */
  lemma ColonNotAscDesc(d: string)
    requires ':' in d
    ensures !IsAscDesc(d)
  {
    var k :| 0 <= k < |d| && d[k] == ':';
    LowerAsciiAt(d, k);
    assert LowerAscii(d)[k] == ':';
  }

  lemma AscDescHasNoColon(d: string)
    requires IsAscDesc(d)
    ensures ':' !in d
  {
    if ':' in d {
      ColonNotAscDesc(d);
    }
  }

  lemma {:induction false} LowerAsciiAt(s: string, k: nat)
    requires k < |s|
    ensures LowerAscii(s)[k] == if 'A' <= s[k] <= 'Z' then (s[k] as int + 32) as char else s[k]
  {
    if k > 0 {
      LowerAsciiAt(s[1..], k - 1);
    }
  }

  /** A matching string is exactly a field, a colon and a direction, and it splits into those two pieces. */
  lemma OrderParts(s: string) returns (f: string, d: string)
    requires MatchesOrderPattern(s)
    ensures s == f + [':'] + d
    ensures IsIdent(f) && IsAscDesc(d)
    ensures Split(s, ':') == [f, d]
    ensures OrderField(s) == f
  {
    var i := IndexOf(s, ':');
    f, d := s[..i], s[i + 1..];
    assert s == f + [':'] + d;
    AscDescHasNoColon(d);
    FirstPiece(s, ':', i);
  }

  /** Every accepted value has the shape `field:direction` with an allowed identifier as the field. */
  lemma AcceptedOrderShape(allowedFields: seq<string>, s: string) returns (f: string, d: string)
    requires ValidateOrder(allowedFields, s).Success?
    ensures s == f + [':'] + d && f in allowedFields && IsIdent(f) && IsAscDesc(d)
  {
    f, d := OrderParts(s);
  }

  /** Conversely, any allowed identifier followed by a colon and a direction is accepted, unchanged. */
  lemma OrderOfParts(allowedFields: seq<string>, f: string, d: string)
    requires IsIdent(f) && f in allowedFields && IsAscDesc(d)
    ensures ValidateOrder(allowedFields, f + [':'] + d) == Success(f + [':'] + d)
  {
    IdentHasNoColon(f);
    OrderFieldOf(f, d);
  }

  /** The field of `f:d` is `f` when `f` has no colon, and the colon is found right after it. */
  lemma OrderFieldOf(f: string, d: string)
    requires ':' !in f
    ensures OrderField(f + [':'] + d) == f
    ensures IndexOf(f + [':'] + d, ':') == |f|
  {
    var s := f + [':'] + d;
    assert s[|f|] == ':' && s[..|f|] == f && s[|f| + 1..] == d;
    FirstPiece(s, ':', |f|);
  }

  /** A field name with any character outside `[a-zA-Z_]`, a digit say, is never accepted. */
  lemma NonIdentFieldRejected(allowedFields: seq<string>, f: string, d: string, k: nat)
    requires k < |f| && !IsIdentChar(f[k])
    ensures ValidateOrder(allowedFields, f + [':'] + d).Failure?
  {
    var s := f + [':'] + d;
    assert s[|f|] == ':';
    var i := IndexOf(s, ':');
    if i > k {
      assert s[..i][k] == f[k];
    } else {
      assert s[i + 1..][|f| - i - 1] == ':';
      ColonNotAscDesc(s[i + 1..]);
    }
  }

  /** A well-formed value naming a field outside the list fails on the membership rule alone. */
  lemma UnknownFieldOnly(allowedFields: seq<string>, f: string, d: string)
    requires IsIdent(f) && f !in allowedFields && IsAscDesc(d)
    ensures ValidateOrder(allowedFields, f + [':'] + d) == Failure({FieldNotAllowed})
  {
    OrderOfParts([f], f, d);
    assert MatchesOrderPattern(f + [':'] + d) && OrderField(f + [':'] + d) == f;
  }

  /** An allowed field with a direction other than asc/desc fails on the pattern rule alone. */
  lemma BadDirectionOnly(allowedFields: seq<string>, f: string, d: string)
    requires IsIdent(f) && f in allowedFields && ':' !in d && !IsAscDesc(d)
    ensures ValidateOrder(allowedFields, f + [':'] + d) == Failure({PatternMismatch})
  {
    IdentHasNoColon(f);
    OrderFieldOf(f, d);
    var s := f + [':'] + d;
    assert s[..|f|] == f && s[|f| + 1..] == d;
  }

  /** With `allowedFields = ['nombre']`: `nombre:asc` and `nombre:DESC` pass. */
  lemma OrderAcceptedExamples(v: string)
    requires v == "nombre:asc" || v == "nombre:DESC"
    ensures ValidateOrder(["nombre"], v) == Success(v)
  {
    if v == "nombre:asc" {
      assert v == "nombre" + [':'] + "asc";
      OrderOfParts(["nombre"], "nombre", "asc");
    } else {
      assert v == "nombre" + [':'] + "DESC";
      OrderOfParts(["nombre"], "nombre", "DESC");
    }
  }

  /** `precio:asc` fails on the field only. */
  lemma OrderPrecioExample()
    ensures ValidateOrder(["nombre"], "precio:asc") == Failure({FieldNotAllowed})
  {
    assert "precio:asc" == "precio" + [':'] + "asc";
    UnknownFieldOnly(["nombre"], "precio", "asc");
  }

  /** `noexiste:asc` fails on the field only. */
  lemma OrderNoexisteExample()
    ensures ValidateOrder(["nombre"], "noexiste:asc") == Failure({FieldNotAllowed})
  {
    assert "noexiste:asc" == "noexiste" + [':'] + "asc";
    UnknownFieldOnly(["nombre"], "noexiste", "asc");
  }

  /** `nombre:sideways` fails on the pattern only. */
  lemma OrderSidewaysExample()
    ensures ValidateOrder(["nombre"], "nombre:sideways") == Failure({PatternMismatch})
  {
    assert "nombre:sideways" == "nombre" + [':'] + "sideways";
    assert |LowerAscii("sideways")| == 8;
    BadDirectionOnly(["nombre"], "nombre", "sideways");
  }
}
