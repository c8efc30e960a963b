/**
 * UUID.randomUUID().toString(): the 36-character text form of section 3 of
 * RFC 4122, lower-case hex digits in groups of 8-4-4-4-12 joined by '-'.
 * Which UUID comes out is random; the model takes it as an input.
 */
module Uuid {
  import Text

  /** A lower-case hexadecimal digit, as UUID.toString() writes them. */
  predicate IsHex(c: char) {
    '0' <= c <= '9' || 'a' <= c <= 'f'
  }

  predicate IsDashPosition(i: int) {
    i == 8 || i == 13 || i == 18 || i == 23
  }

  predicate IsUuidText(s: string) {
    |s| == 36 && forall i :: 0 <= i < 36 ==> if IsDashPosition(i) then s[i] == '-' else IsHex(s[i])
  }

  type Uuid = s: string | IsUuidText(s) witness "00000000-0000-0000-0000-000000000000"

  predicate AllHex(s: string) {
    forall i :: 0 <= i < |s| ==> IsHex(s[i])
  }

  /** A run of hex digits holds no '-'. */
  lemma HexHasNoDash(s: string)
    requires AllHex(s)
    ensures '-' !in s
  {
  }

  /** The five hex groups of a UUID's text form. */
  lemma Groups(u: Uuid)
    ensures u == u[..8] + "-" + u[9..13] + "-" + u[14..18] + "-" + u[19..23] + "-" + u[24..]
    ensures AllHex(u[..8]) && AllHex(u[9..13]) && AllHex(u[14..18]) && AllHex(u[19..23]) && AllHex(u[24..])
  {
    assert IsDashPosition(8) && IsDashPosition(13) && IsDashPosition(18) && IsDashPosition(23);
    assert u[8] == '-' && u[13] == '-' && u[18] == '-' && u[23] == '-';
    assert forall i :: 0 <= i < 8 ==> u[..8][i] == u[i] && !IsDashPosition(i);
    assert forall i :: 0 <= i < 4 ==> u[9..13][i] == u[9 + i] && !IsDashPosition(9 + i);
    assert forall i :: 0 <= i < 4 ==> u[14..18][i] == u[14 + i] && !IsDashPosition(14 + i);
    assert forall i :: 0 <= i < 4 ==> u[19..23][i] == u[19 + i] && !IsDashPosition(19 + i);
    assert forall i :: 0 <= i < 12 ==> u[24..][i] == u[24 + i] && !IsDashPosition(24 + i);
  }

  lemma DropTrailingDash(x: string)
    ensures Text.RemoveChar(x + "-", '-') == Text.RemoveChar(x, '-')
  {
    Text.RemoveCharConcat(x, "-", '-');
    assert Text.RemoveChar("-", '-') == [];
  }

  /** Dropping the dashes of `x + "-" + y`, where `y` holds none. */
  lemma DropDash(x: string, y: string)
    requires '-' !in y
    ensures Text.RemoveChar(x + "-" + y, '-') == Text.RemoveChar(x, '-') + y
  {
    Text.RemoveCharConcat(x + "-", y, '-');
    DropTrailingDash(x);
    Text.RemoveCharAbsent(y, '-');
  }

  /**
   * generateTraceId(): `UUID.randomUUID().toString().replace("-", "")`, 32
   * hex digits without a dash.
   */
  function GenerateTraceId(u: Uuid): (id: string)
    ensures |id| == 32 && AllHex(id) && '-' !in id
    ensures !Text.Blank(id)
  {
    Groups(u);
    var a, b, c, d, e := u[..8], u[9..13], u[14..18], u[19..23], u[24..];
    HexHasNoDash(a); HexHasNoDash(b); HexHasNoDash(c); HexHasNoDash(d); HexHasNoDash(e);
    Text.RemoveCharAbsent(a, '-');
    DropDash(a, b);
    DropDash(a + "-" + b, c);
    DropDash(a + "-" + b + "-" + c, d);
    DropDash(a + "-" + b + "-" + c + "-" + d, e);
    var id := Text.RemoveChar(u, '-');
    assert id == u[..8] + u[9..13] + u[14..18] + u[19..23] + u[24..];
    assert AllHex(id) by {
      forall i | 0 <= i < 32 ensures IsHex(id[i]) {
        if i < 8 { assert id[i] == u[..8][i]; }
        else if i < 12 { assert id[i] == u[9..13][i - 8]; }
        else if i < 16 { assert id[i] == u[14..18][i - 12]; }
        else if i < 20 { assert id[i] == u[19..23][i - 16]; }
        else { assert id[i] == u[24..][i - 20]; }
      }
    }
    assert IsHex(id[0]);
    Text.NotBlankWitness(id, 0);
    id
  }
}
