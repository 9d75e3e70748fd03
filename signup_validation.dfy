/**
 * The field validators of the sign-up wizard (client/src/components/SignupForm/SignupForm.js).
 * Each builds an error object whose keys are the fields left empty after trimming.
 */
module SignupValidation {
  import opened Strings

  const MandatoryField: string := "This is a mandatory field"

  /** The values of the first step; the other steps have one field each. */
  datatype Form1Values = Form1Values(name: string, email: string, month: string, day: string, year: string)

  /** `if (!value.trim()) errors[field] = 'This is a mandatory field'`. */
  method Require(errors: map<string, string>, field: string, value: string) returns (result: map<string, string>)
    ensures IsBlank(value) ==> result == errors[field := MandatoryField]
    ensures !IsBlank(value) ==> result == errors
  {
    TrimEmptyIffBlank(value);
    result := errors;
    if Trim(value) == "" {
      result := result[field := MandatoryField];
    }
  }

  method ValidateForm1(values: Form1Values) returns (errors: map<string, string>)
    ensures errors.Keys <= {"name", "email", "month", "day", "year"}
    ensures "name" in errors <==> IsBlank(values.name)
    ensures "email" in errors <==> IsBlank(values.email)
    ensures "month" in errors <==> IsBlank(values.month)
    ensures "day" in errors <==> IsBlank(values.day)
    ensures "year" in errors <==> IsBlank(values.year)
    ensures forall f :: f in errors ==> errors[f] == MandatoryField
  {
    errors := map[];
    errors := Require(errors, "name", values.name);
    errors := Require(errors, "email", values.email);
    errors := Require(errors, "month", values.month);
    errors := Require(errors, "day", values.day);
    errors := Require(errors, "year", values.year);
  }

  method ValidateForm2(password: string) returns (errors: map<string, string>)
    ensures errors == if IsBlank(password) then map["password" := MandatoryField] else map[]
  {
    errors := Require(map[], "password", password);
  }

  method ValidateForm3(username: string) returns (errors: map<string, string>)
    ensures errors == if IsBlank(username) then map["username" := MandatoryField] else map[]
  {
    errors := Require(map[], "username", username);
  }

  method ValidateForm4(bio: string) returns (errors: map<string, string>)
    ensures errors == if IsBlank(bio) then map["bio" := MandatoryField] else map[]
  {
    errors := Require(map[], "bio", bio);
  }
}
