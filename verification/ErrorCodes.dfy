/** Mapping between 32-bit application error codes and HTTP/3 error codes. */
module ErrorCodes {
  import opened Types

  const U32_MAX: nat := 0xFFFF_FFFF

  function ToHttp(code: nat): ErrorCode {
    ERR_WT_APPLICATION_ERROR_FIRST + code + code / 0x1E
  }

  predicate IsReserved(http: ErrorCode)
    requires http >= 0x21
  {
    (http - 0x21) % 0x1F == 0
  }

  function FromHttp(http: ErrorCode): Option<nat> {
    if !(ERR_WT_APPLICATION_ERROR_FIRST <= http <= ERR_WT_APPLICATION_ERROR_LAST) then None
    else if IsReserved(http) then None
    else
      var shifted := http - ERR_WT_APPLICATION_ERROR_FIRST;
      var result := shifted - shifted / 0x1F;
      if result <= U32_MAX then Some(result) else None
  }

  /** The code an application asked for, clamped as Stream::reset and Stream::stop do. */
  function Clamp(code: ErrorCode): ErrorCode {
    if code <= U32_MAX then ToHttp(code) else ERR_WT_APPLICATION_ERROR_FIRST
  }

  /** Every 32-bit code survives the trip through the HTTP/3 error space and avoids reserved codepoints. */
  lemma ToHttpInverse(code: nat)
    requires code <= U32_MAX
    ensures ERR_WT_APPLICATION_ERROR_FIRST <= ToHttp(code) <= ERR_WT_APPLICATION_ERROR_LAST
    ensures !IsReserved(ToHttp(code))
    ensures FromHttp(ToHttp(code)) == Some(code)
  {
    var q, r := code / 30, code % 30;
    assert code + q == 31 * q + r;
    assert (code + q) / 31 == q;
    assert (ERR_WT_APPLICATION_ERROR_FIRST - 0x21) % 31 == 1;
    assert (ToHttp(code) - 0x21) % 31 == (r + 1) % 31;
  }

  /** The image of the mapping is exactly the non-reserved part of the range. */
  lemma FromHttpInverse(http: ErrorCode)
    requires ERR_WT_APPLICATION_ERROR_FIRST <= http <= ERR_WT_APPLICATION_ERROR_LAST
    ensures !IsReserved(http) <==> FromHttp(http).Some?
    ensures FromHttp(http).Some? ==> FromHttp(http).value <= U32_MAX && ToHttp(FromHttp(http).value) == http
  {
    var shifted := http - ERR_WT_APPLICATION_ERROR_FIRST;
    var q, r := shifted / 31, shifted % 31;
    assert (ERR_WT_APPLICATION_ERROR_FIRST - 0x21) % 31 == 1;
    assert (http - 0x21) % 31 == (r + 1) % 31;
    assert shifted - q == 30 * q + r;
    if r < 30 {
      assert (30 * q + r) / 30 == q;
    }
  }
}
