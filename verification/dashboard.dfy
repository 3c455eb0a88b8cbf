/** Display rules of UserDashboard.tsx: the greeting chosen by hour band
    and language tag, the avatar initial and the gender label. The hour is
    a parameter (the component reads the clock). */
module Dashboard {
  import opened Common
  import opened Text

  datatype Band = Morning | Midday | Evening

  /** `hour < 12`, then `hour < 18`, then the rest. */
  function BandOf(hour: int): (b: Band)
    ensures b == Morning <==> hour < 12
    ensures b == Midday <==> 12 <= hour < 18
    ensures b == Evening <==> hour >= 18
  {
    if hour < 12 then Morning else if hour < 18 then Midday else Evening
  }

  function GreetingText(b: Band, lang: string): string
  {
    if lang == "HI" then
      match b
      case Morning => "सुप्रभात"
      case Midday => "नमस्ते"
      case Evening => "शुभ संध्या"
    else if lang == "PA" then
      match b
      case Morning => "ਸਵੇਰ"
      case Midday => "ਸਤਿ ਸ੍ਰੀ ਅਕਾਲ"
      case Evening => "ਸ਼ਾਮ"
    else
      match b
      case Morning => "Good Morning"
      case Midday => "Hello"
      case Evening => "Good Evening"
  }

  /** `getGreeting`; any tag other than 'HI' and 'PA' greets in English. */
  function Greeting(hour: int, lang: string): (g: string)
    ensures hour < 12 ==> g == GreetingText(Morning, lang)
    ensures 12 <= hour < 18 ==> g == GreetingText(Midday, lang)
    ensures hour >= 18 ==> g == GreetingText(Evening, lang)
    ensures lang != "HI" && lang != "PA" ==> g in {"Good Morning", "Hello", "Good Evening"}
  {
    GreetingText(BandOf(hour), lang)
  }

  /** Within one language the three greetings differ, so the greeting
      shown tells the band of the hour and nothing more. */
  lemma GreetingDeterminesBand(h1: int, h2: int, lang: string)
    ensures Greeting(h1, lang) == Greeting(h2, lang) <==> BandOf(h1) == BandOf(h2)
  {
    var b1, b2 := BandOf(h1), BandOf(h2);
    if b1 != b2 {
      var g1, g2 := GreetingText(b1, lang), GreetingText(b2, lang);
      if lang == "PA" {
        assert |g1| != |g2| || g1[1] != g2[1];
      } else {
        assert |g1| != |g2| || g1[5] != g2[5];
      }
    }
  }

  /** `user.name?.charAt(0).toUpperCase() || 'U'`. */
  function AvatarInitial(name: Option<string>): (r: string)
    ensures name.None? || name.value == "" ==> r == "U"
    ensures name.Some? && name.value != "" ==> r == [UpperChar(name.value[0])]
  {
    match name
    case None => "U"
    case Some(n) => if n == "" then "U" else [UpperChar(n[0])]
  }

  /** The initial is always one character. */
  lemma AvatarIsOneCharacter(name: Option<string>)
    ensures |AvatarInitial(name)| == 1
  {
  }

  function MaleLabel(lang: string): string
  {
    if lang == "HI" then "पुरुष" else if lang == "PA" then "ਮਰਦ" else "Male"
  }

  function FemaleLabel(lang: string): string
  {
    if lang == "HI" then "महिला" else if lang == "PA" then "ਔਰਤ" else "Female"
  }

  /** The gender entry: absent unless the gender is set; 'M' is male and any
      other value female. */
  function GenderLabel(gender: Option<string>, lang: string): (r: Option<string>)
    ensures r.None? <==> !Truthy(gender)
    ensures Truthy(gender) && gender.value == "M" ==> r == Some(MaleLabel(lang))
    ensures Truthy(gender) && gender.value != "M" ==> r == Some(FemaleLabel(lang))
  {
    if !Truthy(gender) then None
    else if gender.value == "M" then Some(MaleLabel(lang))
    else Some(FemaleLabel(lang))
  }

  /** Only the exact value 'M' is male: lower-case 'm' and 'Male' show the
      female label. */
  lemma OnlyExactMIsMale(lang: string)
    ensures GenderLabel(Some("m"), lang) == Some(FemaleLabel(lang))
    ensures GenderLabel(Some("Male"), lang) == Some(FemaleLabel(lang))
    ensures MaleLabel(lang) != FemaleLabel(lang)
  {
    assert "m" != "M";
    assert "Male" != "M";
    if lang == "HI" {
      assert MaleLabel(lang)[0] != FemaleLabel(lang)[0];
    } else if lang == "PA" {
      assert MaleLabel(lang)[0] != FemaleLabel(lang)[0];
    } else {
      assert MaleLabel(lang)[0] != FemaleLabel(lang)[0];
    }
  }

  /** For a set gender, two values get the same label exactly when both or
      neither are exactly 'M'. */
  lemma GenderLabelSeparatesMale(g1: string, g2: string, lang: string)
    requires g1 != "" && g2 != ""
    ensures GenderLabel(Some(g1), lang) == GenderLabel(Some(g2), lang) <==> (g1 == "M" <==> g2 == "M")
  {
    OnlyExactMIsMale(lang);
  }
}
