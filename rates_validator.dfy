/**
 * The checkout shipping-rates validator
 * (view/frontend/web/js/model/shipping-rates-validator.js). It keeps the
 * error messages of every call in one list that is never cleared.
 */
module RatesValidator {
  /** A validation rule: the address field and whether it is required. */
  datatype Rule = Rule(field: string, required: bool)

  /** `utils.isEmpty`: the field is missing or empty. */
  predicate FieldEmpty(address: map<string, string>, field: string)
  {
    field !in address || address[field] == ""
  }

  function RequiredMessage(field: string): string
  {
    "Field " + field + " is required."
  }

  /** The messages one call pushes: one per required rule whose field is empty, in rule order. */
  function RuleErrors(rules: seq<Rule>, address: map<string, string>): seq<string>
  {
    if rules == [] then []
    else
      var r := rules[|rules| - 1];
      RuleErrors(rules[..|rules| - 1], address) + (if r.required && FieldEmpty(address, r.field) then [RequiredMessage(r.field)] else [])
  }

  /** The number of required rules with an empty field. */
  function FailingRules(rules: seq<Rule>, address: map<string, string>): nat
  {
    if rules == [] then 0
    else
      var r := rules[|rules| - 1];
      FailingRules(rules[..|rules| - 1], address) + (if r.required && FieldEmpty(address, r.field) then 1 else 0)
  }

  /** Exactly one message per failing rule, and each message names a failing rule's field. */
  lemma {:induction false} RuleErrorsExact(rules: seq<Rule>, address: map<string, string>)
    ensures |RuleErrors(rules, address)| == FailingRules(rules, address)
    ensures forall m :: m in RuleErrors(rules, address) ==>
      exists i :: 0 <= i < |rules| && rules[i].required && FieldEmpty(address, rules[i].field) && m == RequiredMessage(rules[i].field)
    ensures forall i :: 0 <= i < |rules| && rules[i].required && FieldEmpty(address, rules[i].field) ==>
      RequiredMessage(rules[i].field) in RuleErrors(rules, address)
  {
    if rules != [] {
      var init := rules[..|rules| - 1];
      RuleErrorsExact(init, address);
      forall i | 0 <= i < |init| ensures init[i] == rules[i] { }
    }
  }

  /** The verdict with no errors pending: for the origin country a postcode is needed, otherwise anything passes. */
  predicate AddressAccepted(address: map<string, string>, originCountryCode: string)
  {
    if "country_id" in address && address["country_id"] == originCountryCode then !FieldEmpty(address, "postcode") else true
  }

  class ShippingRatesValidator {
    var validationErrors: seq<string>

    constructor ()
      ensures validationErrors == []
    {
      validationErrors := [];
    }

    /**
     * validate: push this call's messages, then accept only when no
     * message has ever been pushed and the address passes.
     */
    method Validate(address: map<string, string>, rules: seq<Rule>, originCountryCode: string) returns (valid: bool)
      modifies this
      ensures validationErrors == old(validationErrors) + RuleErrors(rules, address)
      ensures valid <==> validationErrors == [] && AddressAccepted(address, originCountryCode)
      ensures old(validationErrors) != [] ==> !valid
    {
      var i := 0;
      while i < |rules|
        invariant 0 <= i <= |rules|
        invariant validationErrors == old(validationErrors) + RuleErrors(rules[..i], address)
      {
        assert rules[..i + 1][..i] == rules[..i];
        if rules[i].required && FieldEmpty(address, rules[i].field) {
          var message := "Field " + rules[i].field + " is required.";
          validationErrors := validationErrors + [message];
        }
        i := i + 1;
      }
      assert rules[..i] == rules;
      if |validationErrors| == 0 {
        if "country_id" in address && address["country_id"] == originCountryCode {
          return !FieldEmpty(address, "postcode");
        }
        return true;
      }
      return false;
    }
  }
}
