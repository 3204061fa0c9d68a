/**
 * The registration page object (RegisterPage): open the fixed URL, pick the gender
 * radio by a case-insensitive match, and check the first hobby box.
 */
module Register {
  import opened Strings
  import opened Playwright

  const Url := "https://demo.automationtesting.in/Register.html"
  const GenderMaleRdo: Selector := "input[value='Male']"
  const GenderFemaleRdo: Selector := "input[value='FeMale']"
  const HobbiesCheckboxes: Selector := "input[type='checkbox']"

  /** Which branch SelectGenderAsync takes. */
  datatype GenderChoice = MaleRadio | FemaleRadio | InvalidGender

  /** The if/else chain: "Male" is compared first, then "Female", both ignoring case. */
  function ChooseGender(gender: string): GenderChoice {
    if EqualsIgnoreCase(gender, "Male") then MaleRadio
    else if EqualsIgnoreCase(gender, "Female") then FemaleRadio
    else InvalidGender
  }

  function InvalidGenderMessage(gender: string): string {
    "Invalid gender value: " + gender
  }

  /** The choice is decided by the upper-cased value alone, and no value matches both words, so the order of the tests is immaterial. */
  lemma ChooseGenderByUpperCase(gender: string)
    ensures ChooseGender(gender) == MaleRadio <==> ToUpper(gender) == "MALE"
    ensures ChooseGender(gender) == FemaleRadio <==> ToUpper(gender) == "FEMALE"
    ensures ChooseGender(gender) == InvalidGender <==> ToUpper(gender) != "MALE" && ToUpper(gender) != "FEMALE"
    ensures !(EqualsIgnoreCase(gender, "Male") && EqualsIgnoreCase(gender, "Female"))
  {
    EqualsIgnoreCaseIsUpperEquality(gender, "Male");
    EqualsIgnoreCaseIsUpperEquality(gender, "Female");
    assert ToUpper("Male") == "MALE" by {
      var u := ToUpper("Male");
      assert u[0] == 'M' && u[1] == 'A' && u[2] == 'L' && u[3] == 'E';
    }
    assert ToUpper("Female") == "FEMALE" by {
      var u := ToUpper("Female");
      assert u[0] == 'F' && u[1] == 'E' && u[2] == 'M' && u[3] == 'A' && u[4] == 'L' && u[5] == 'E';
    }
  }

  /** SelectGenderAsync against a page. */
  function SelectGenderRun(v: PageView, gender: string): Run {
    match ChooseGender(gender)
    case MaleRadio => Run([Clicked(GenderMaleRdo)], v.ActOn(GenderMaleRdo))
    case FemaleRadio => Run([Clicked(GenderFemaleRdo)], v.ActOn(GenderFemaleRdo))
    case InvalidGender => Run([], Threw(InvalidGenderMessage(gender)))
  }

  /** At most one radio is clicked: Male for any casing of "male", the 'FeMale' radio for any casing of "female", none otherwise, and then it throws. */
  lemma SelectGenderClicksAtMostOne(v: PageView, gender: string)
    ensures var run := SelectGenderRun(v, gender);
      && |run.actions| <= 1
      && (run.actions == [Clicked(GenderMaleRdo)] <==> ToUpper(gender) == "MALE")
      && (run.actions == [Clicked(GenderFemaleRdo)] <==> ToUpper(gender) == "FEMALE")
      && (run.actions == [] <==> ToUpper(gender) != "MALE" && ToUpper(gender) != "FEMALE")
      && (run.actions == [] ==> run.outcome == Threw(InvalidGenderMessage(gender)))
  {
    ChooseGenderByUpperCase(gender);
  }

  class RegisterPage {
    const page: Page

    constructor (page: Page)
      ensures this.page == page
    {
      this.page := page;
    }

    /** OpenAsync: always the same registration URL. */
    method Open() returns (r: Attempt)
      modifies page
      ensures page.actions == old(page.actions) + [Navigated(Url)]
      ensures r == page.view.NavigationResult()
    {
      r := page.Goto(Url);
    }

    /** SelectGenderAsync. */
    method SelectGender(gender: string) returns (r: Attempt)
      modifies page
      ensures var run := SelectGenderRun(page.view, gender);
        page.actions == old(page.actions) + run.actions && r == run.outcome
    {
      if EqualsIgnoreCase(gender, "Male") {
        r := page.Click(GenderMaleRdo);
      } else if EqualsIgnoreCase(gender, "Female") {
        r := page.Click(GenderFemaleRdo);
      } else {
        r := Threw(InvalidGenderMessage(gender));
      }
    }

    /** CheckHobbiesCheckboxAsync: only the first checkbox is checked. */
    method CheckHobbiesCheckbox() returns (r: Attempt)
      modifies page
      ensures page.actions == old(page.actions) + [CheckedFirst(HobbiesCheckboxes)]
      ensures r == page.view.ActOn(HobbiesCheckboxes)
    {
      r := page.CheckFirst(HobbiesCheckboxes);
    }
  }
}
