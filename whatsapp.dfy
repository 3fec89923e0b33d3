// Phone number normalisation for click-to-send links (src/utils/whatsapp.ts).
module WhatsApp {
  import opened Text

  /** formatPhoneForWhatsApp: the digits of `phone`, with the Brazilian country code 55
    * put in front unless they already start with it. */
  function FormatPhoneForWhatsApp(phone: string): (r: string)
    ensures AllDigits(r)
    ensures IsPrefix("55", r)
    ensures IsPrefix("55", DigitsOf(phone)) ==> r == DigitsOf(phone)
    ensures !IsPrefix("55", DigitsOf(phone)) ==> r == "55" + DigitsOf(phone) && |r| == |DigitsOf(phone)| + 2
  {
    var cleaned := DigitsOf(phone);
    if IsPrefix("55", cleaned) then cleaned else "55" + cleaned
  }

  /** Formatting an already formatted number changes nothing. */
  lemma FormatPhoneIdempotent(phone: string)
    ensures FormatPhoneForWhatsApp(FormatPhoneForWhatsApp(phone)) == FormatPhoneForWhatsApp(phone)
  {
    var r := FormatPhoneForWhatsApp(phone);
    DigitsOfDigits(r);
  }

  /** Separators and other non-digits never change the result. */
  lemma FormatPhoneIgnoresSeparators(a: string, sep: char, b: string)
    requires !IsDigit(sep)
    ensures FormatPhoneForWhatsApp(a + [sep] + b) == FormatPhoneForWhatsApp(a + b)
  {
    assert DigitsOf(a + [sep] + b) == DigitsOf(a + b) by {
      DigitsOfConcat(a + [sep], b);
      DigitsOfConcat(a, [sep]);
      DigitsOfConcat(a, b);
      assert DigitsOf([sep]) == [];
    }
  }
}
