/**
 * The license verification step of the business setup wizard: which fields
 * the step requires for each business type, the validation effect that
 * marks step 3 complete, the license lookup that auto-fills the form, and
 * the name field's label. Form fields are strings, "" when unset; the
 * wizard's form and progress are the fields of `SetupWizard`, the lookup
 * service's answer is an input.
 */
module LicenseStep {
  import opened Wrappers

  datatype FormData = FormData(
    businessType: string, licenseNumber: string, businessName: string, department: string,
    passportNumber: string, dateOfBirth: string, country: string,
    licenseExpiry: string, activities: seq<string>)

  datatype Field = LicenseNumber | BusinessName | Department | PassportNumber | DateOfBirth

  function FieldValue(f: FormData, field: Field): string {
    match field
    case LicenseNumber => f.licenseNumber
    case BusinessName => f.businessName
    case Department => f.department
    case PassportNumber => f.passportNumber
    case DateOfBirth => f.dateOfBirth
  }

  /** The fields the step requires: by business type, with 'new' and unknown types alike. */
  function RequiredFields(businessType: string): (r: set<Field>)
    ensures BusinessName in r
    ensures LicenseNumber in r <==> businessType == "existing"
    ensures PassportNumber in r <==> DateOfBirth in r
    ensures PassportNumber in r <==> businessType == "individual"
    ensures Department in r <==> businessType != "individual"
  {
    if businessType == "existing" then {LicenseNumber, BusinessName, Department}
    else if businessType == "individual" then {PassportNumber, BusinessName, DateOfBirth}
    else {BusinessName, Department}
  }

  /** Every required field is filled in. */
  predicate StepFilled(f: FormData) {
    forall field :: field in RequiredFields(f.businessType) ==> FieldValue(f, field) != ""
  }

  /** A lookup hit: the registry's name, expiry and activities. */
  datatype LicenseData = LicenseData(name: string, expiry: string, activities: seq<string>)

  datatype LookupReply =
    | LookupThrew
    | Answered(found: bool, data: Option<LicenseData>)

  /** `getBusinessNameLabel`. */
  function NameLabel(businessType: string): (l: string)
    ensures businessType == "individual" ==> l == "Name"
    ensures businessType == "new" ==> l == "Proposed Business Name"
    ensures businessType != "individual" && businessType != "new" ==> l == "Business Name"
  {
    if businessType == "individual" then "Name"
    else if businessType == "new" then "Proposed Business Name"
    else "Business Name"
  }

  /** `getBusinessNamePlaceholder`. */
  function NamePlaceholder(businessType: string): (l: string)
    ensures businessType == "individual" ==> l == "Enter your full name"
    ensures businessType != "individual" ==> l == NameLabel(businessType)
  {
    if businessType == "individual" then "Enter your full name"
    else if businessType == "new" then "Proposed Business Name"
    else "Business Name"
  }

  class SetupWizard {
    var formData: FormData
    var completedSteps: set<nat>
    var validationErrors: map<string, string>

    constructor(formData: FormData)
      ensures this.formData == formData && completedSteps == {} && validationErrors == map[]
    {
      this.formData := formData;
      completedSteps := {};
      validationErrors := map[];
    }
  }

  class LicenseVerificationStep {
    const wizard: SetupWizard
    var isLooking: bool
    var lookupResult: Option<LicenseData>

    constructor(wizard: SetupWizard)
      ensures this.wizard == wizard && !isLooking && lookupResult.None?
    {
      this.wizard := wizard;
      isLooking := false;
      lookupResult := None;
    }

    /**
     * The validation effect: when the required fields are filled the errors
     * are cleared and step 3 is marked complete; otherwise nothing happens,
     * so a completed step is never un-marked.
     */
    method Validate() returns (isValid: bool)
      modifies wizard
      ensures isValid <==> StepFilled(wizard.formData)
      ensures wizard.formData == old(wizard.formData)
      ensures isValid ==> wizard.completedSteps == old(wizard.completedSteps) + {3} && wizard.validationErrors == map[]
      ensures !isValid ==> wizard.completedSteps == old(wizard.completedSteps) && wizard.validationErrors == old(wizard.validationErrors)
    {
      var f := wizard.formData;
      isValid := false;
      if f.businessType == "existing" {
        isValid := f.licenseNumber != "" && f.businessName != "" && f.department != "";
      } else if f.businessType == "individual" {
        isValid := f.passportNumber != "" && f.businessName != "" && f.dateOfBirth != "";
      } else {
        isValid := f.businessName != "" && f.department != "";
      }
      assert isValid ==> StepFilled(f);
      assert !isValid ==> !StepFilled(f) by {
        if !isValid {
          if f.businessType == "existing" {
            assert FieldValue(f, LicenseNumber) == "" || FieldValue(f, BusinessName) == "" || FieldValue(f, Department) == "";
          } else if f.businessType == "individual" {
            assert FieldValue(f, PassportNumber) == "" || FieldValue(f, BusinessName) == "" || FieldValue(f, DateOfBirth) == "";
          } else {
            assert FieldValue(f, BusinessName) == "" || FieldValue(f, Department) == "";
          }
        }
      }
      if isValid {
        wizard.validationErrors := map[];
        wizard.completedSteps := wizard.completedSteps + {3};
      }
    }

    /**
     * `handleLicenseLookup`: a no-op without a license number and a country;
     * a hit stores the result and auto-fills name, expiry and activities;
     * a miss or an error clears the result. The lookup always ends.
     */
    method Lookup(reply: LookupReply) returns (looked: bool)
      modifies this, wizard
      ensures looked <==> old(wizard.formData).licenseNumber != "" && old(wizard.formData).country != ""
      ensures !looked ==> (lookupResult == old(lookupResult) && isLooking == old(isLooking)
        && wizard.formData == old(wizard.formData))
      ensures looked ==> !isLooking
      ensures looked && reply.Answered? && reply.found && reply.data.Some? ==>
        var d := reply.data.value;
        && lookupResult == Some(d)
        && wizard.formData == old(wizard.formData).(businessName := d.name, licenseExpiry := d.expiry, activities := d.activities)
      ensures looked && !(reply.Answered? && reply.found && reply.data.Some?) ==>
        lookupResult.None? && wizard.formData == old(wizard.formData)
      ensures wizard.completedSteps == old(wizard.completedSteps) && wizard.validationErrors == old(wizard.validationErrors)
    {
      var f := wizard.formData;
      if f.licenseNumber == "" || f.country == "" {
        return false;
      }
      looked := true;
      isLooking := true;
      if reply.Answered? && reply.found && reply.data.Some? {
        var d := reply.data.value;
        lookupResult := Some(d);
        wizard.formData := f.(businessName := d.name, licenseExpiry := d.expiry, activities := d.activities);
      } else {
        lookupResult := None;
      }
      isLooking := false;
    }

    /** The business name field is locked once a lookup has filled it. */
    function NameFieldDisabled(): (disabled: bool)
      reads this
      ensures disabled <==> lookupResult.Some?
    {
      lookupResult.Some?
    }
  }

  /** A successful lookup fills the business name, so for a license holder with a department the step becomes complete. */
  lemma LookupCompletesExisting(f: FormData, d: LicenseData)
    requires f.businessType == "existing" && f.licenseNumber != "" && f.department != "" && d.name != ""
    ensures StepFilled(f.(businessName := d.name, licenseExpiry := d.expiry, activities := d.activities))
  {
  }

  /** An individual needs no department, and a new business needs no license number. */
  lemma RequirementsDiffer(f: FormData)
    requires f.businessName != ""
    ensures f.businessType == "individual" && f.passportNumber != "" && f.dateOfBirth != "" ==> StepFilled(f)
    ensures f.businessType == "new" && f.department != "" ==> StepFilled(f)
    ensures f.businessType == "existing" && f.licenseNumber == "" ==> !StepFilled(f)
  {
    if f.businessType == "existing" && f.licenseNumber == "" {
      assert FieldValue(f, LicenseNumber) == "";
    }
  }
}
