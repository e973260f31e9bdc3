/**
 * The lookup tables of utils/metallicity.py: the emission lines each
 * strong-line diagnostic needs, and the Kewley (2019) calibrations, given as
 * the coefficients of a cubic in two variables together with the window
 * (in log(O/H) + 12, and for the ionisation diagnostics also in log U)
 * inside which a result is kept.
 */
module MetTables {
  import opened Outcomes

  /** A + Bx + Cy + Dxy + Ex^2 + Fy^2 + Gxy^2 + Hyx^2 + Ix^3 + Jy^3 */
  datatype Cubic = Cubic(a: real, b: real, c: real, d: real, e: real, f: real, g: real, h: real, i: real, j: real)

  /** A metallicity calibration: x is the log line ratio, y is log U. `rms` is in percent. */
  datatype MetCal = MetCal(p: Cubic, rms: real, zmin: real, zmax: real)

  /** An ionisation-parameter calibration: x is the log line ratio, y is log(O/H) + 12. */
  datatype IonCal = IonCal(p: Cubic, rms: real, zmin: real, zmax: real, umin: real, umax: real)

  /** `s.endswith(t)` */
  predicate EndsWith(s: string, t: string)
  {
    |t| <= |s| && s[|s| - |t|..] == t
  }

  /** The Kewley (2019) family is recognised by its name alone. */
  predicate IsK19(d: string)
  {
    |d| >= 3 && d[|d| - 3] == 'K' && d[|d| - 2] == '1' && d[|d| - 1] == '9'
  }

  /** The test above is `d.endswith("K19")`. */
  lemma IsK19EndsWith(d: string)
    ensures IsK19(d) <==> EndsWith(d, "K19")
  {
    if |d| >= 3 {
      var t := d[|d| - 3..];
      assert t[0] == d[|d| - 3] && t[1] == d[|d| - 2] && t[2] == d[|d| - 1];
    }
  }

  /** `line_list_dict`: the flux columns each diagnostic reads. */
  function LineList(d: string): (r: Option<seq<string>>)
    ensures r.Some? ==> |r.value| >= 2
  {
    if d == "N2Ha_K19" then Some(["NII6583", "HALPHA"])
    else if d == "S2Ha_K19" then Some(["SII6716+SII6731", "HALPHA"])
    else if d == "N2S2_K19" then Some(["NII6583", "SII6716+SII6731"])
    else if d == "S23_K19" then Some(["SII6716+SII6731", "SIII9069", "SIII9531", "HALPHA"])
    else if d == "O3N2_K19" then Some(["OIII5007", "HBETA", "NII6583", "HALPHA"])
    else if d == "O2S2_K19" then Some(["OII3726+OII3729", "SII6716+SII6731"])
    else if d == "O2Hb_K19" then Some(["OII3726+OII3729", "HBETA"])
    else if d == "N2O2_K19" then Some(["NII6583", "OII3726+OII3729"])
    else if d == "R23_K19" then Some(["OIII4959+OIII5007", "OII3726+OII3729", "HBETA"])
    else if d == "O3O2_K19" then Some(["OIII5007", "OII3726+OII3729"])
    else if d == "S32_K19" then Some(["SIII9069", "SIII9531", "SII6716+SII6731"])
    else if d == "N2Ha_PP04" then Some(["NII6583", "HALPHA"])
    else if d == "N2Ha_M13" then Some(["NII6583", "HALPHA"])
    else if d == "O3N2_PP04" then Some(["OIII5007", "HBETA", "HALPHA", "NII6583"])
    else if d == "O3N2_M13" then Some(["OIII5007", "HBETA", "HALPHA", "NII6583"])
    else if d == "R23_KK04" then Some(["NII6583", "OII3726+OII3729", "HBETA", "OIII4959+OIII5007", "OII3726+OII3729"])
    else if d == "O3O2_KK04" then Some(["OIII4959+OIII5007", "OII3726+OII3729"])
    else if d == "R23_C17" then Some(["OII3726", "OIII4959+OIII5007", "HBETA"])
    else if d == "N2S2Ha_D16" then Some(["NII6583", "SII6716+SII6731", "HALPHA"])
    else if d == "N2O2_KD02" then Some(["NII6583", "OII3726+OII3729"])
    else if d == "Rcal_PG16" then Some(["OII3726+OII3729", "HBETA", "NII6548+NII6583", "OIII4959+OIII5007"])
    else if d == "Scal_PG16" then Some(["HBETA", "NII6548+NII6583", "OIII4959+OIII5007", "SII6716+SII6731"])
    else if d == "ONS_P10" then Some(["OII3726+OII3729", "OIII4959+OIII5007", "NII6548+NII6583", "SII6716+SII6731", "HBETA"])
    else if d == "ON_P10" then Some(["OII3726+OII3729", "OIII4959+OIII5007", "NII6548+NII6583", "SII6716+SII6731", "HBETA"])
    else None
  }

  /** `met_coeffs_K19`, valid for log(P/k) = 5.0 and -3.98 < log U < -1.98. */
  function MetCoeffs(d: string): Option<MetCal>
  {
    if d == "N2Ha_K19" then
      Some(MetCal(Cubic(10.526, 1.9958, -0.6741, 0.2892, 0.5712, -0.6597, 0.0101, 0.0800, 0.0782, -0.0982), 0.67, 7.63, 8.53))
    else if d == "S2Ha_K19" then
      Some(MetCal(Cubic(23.370, 11.700, 7.2562, 4.3320, 3.1564, 1.0361, 0.4315, 0.6576, 0.3319, 0.0336), 0.92, 7.63, 8.53))
    else if d == "N2S2_K19" then
      Some(MetCal(Cubic(5.8892, 3.1688, -3.5991, 1.6394, -2.3939, -1.6764, 0.4455, -0.9302, -0.0966, -0.2490), 1.19, 7.63, 8.53))
    else if d == "S23_K19" then
      Some(MetCal(Cubic(11.033, 0.9907, 1.5789, 0.4233, -3.1663, 0.3666, 0.0654, -0.2146, -1.7045, 0.0316), 0.55, 7.63, 8.53))
    else if d == "O3N2_K19" then
      Some(MetCal(Cubic(10.312, -1.6575, 2.2525, -1.3594, 0.4764, 1.1730, -0.2968, 0.1974, -0.0544, 0.1891), 2.97, 8.23, 8.93))
    else if d == "O2S2_K19" then
      Some(MetCal(Cubic(12.489, -3.2646, 3.2581, -2.0544, 0.5282, 1.0730, -0.3445, 0.2130, -0.3047, 0.1209), 2.52, 8.23, 9.23))
    else if d == "O2Hb_K19" then
      Some(MetCal(Cubic(6.2084, -4.0513, -1.4847, -1.9125, -1.0071, -0.1275, -0.2471, -0.1872, -0.1052, 0.0173), 0.02, 8.53, 9.23))
    else if d == "N2O2_K19" then
      Some(MetCal(Cubic(9.4772, 1.1797, 0.5085, 0.6879, 0.2807, 0.1612, 0.1187, 0.1200, 0.2293, 0.0164), 2.65, 7.63, 9.23))
    else if d == "R23_K19" then
      Some(MetCal(Cubic(9.7757, -0.5059, 0.9707, -0.1744, -0.0255, 0.3838, -0.0378, 0.0806, -0.0852, 0.0462), 2.11, 8.23, 8.93))
    else None
  }

  /** `ion_coeffs_K19`, valid for log(P/k) = 5.0. */
  function IonCoeffs(d: string): Option<IonCal>
  {
    if d == "O3O2_K19" then
      Some(IonCal(Cubic(13.768, 9.4940, -4.3223, -2.3531, -0.5769, 0.2794, 0.1574, 0.0890, 0.0311, 0.0000), 1.35, 7.63, 8.93, -3.98, -2.98))
    else if d == "S32_K19" then
      Some(IonCal(Cubic(90.017, 21.934, -34.095, -5.0818, -1.4762, 4.1343, 0.3096, 0.1786, 0.1959, -0.1668), 1.96, 7.63, 9.23, -3.98, -2.48))
    else None
  }

  /** Every name with metallicity coefficients is a K19 entry of the line list, without ionisation coefficients. */
  lemma MetCoeffsListed(d: string)
    ensures MetCoeffs(d).Some? ==> LineList(d).Some? && IsK19(d) && IonCoeffs(d).None?
  {
  }

  /** The ionisation coefficients are those of O3O2_K19 and S32_K19 alone, both K19 entries of the line list. */
  lemma IonCoeffsListed(d: string)
    ensures IonCoeffs(d).Some? <==> d == "O3O2_K19" || d == "S32_K19"
    ensures IonCoeffs(d).Some? ==> LineList(d).Some? && IsK19(d) && MetCoeffs(d).None?
  {
  }

  /**
   * The tables fit together: every K19 entry of the line list has exactly
   * one of metallicity and ionisation coefficients.
   */
  lemma K19TablesCover(d: string)
    requires LineList(d).Some? && IsK19(d)
    ensures MetCoeffs(d).Some? <==> IonCoeffs(d).None?
  {
    assert d[|d| - 1] == '9';
  }
}
