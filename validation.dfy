/** Input validation for the agent routes. */
module RouteValidation {
  import opened Json

  /** `AgentValidationError`, the one error the validation raises. */
  datatype AgentValidationError = AgentValidationError(message: string)

  datatype Result<T> = Ok(value: T) | Err(error: AgentValidationError)

  const StringExpected := "Invalid input: Expected a string (country name) for fun_fact_city route"
  const DictExpected := "Invalid input: Expected a dictionary with 'topic' key for cityfacts route"
  const StructurePrefix := "Invalid input structure: "

  /** `TopicInput(**data).model_dump()`: the topic alone when `data` has a
      string `topic` (other fields are ignored), else None for the model's
      validation error. */
  function TopicInput(data: map<string, Json>): (r: Option<Json>)
    ensures r.Some? <==> "topic" in data && data["topic"].JStr?
    ensures r.Some? ==> r.value == JObj(map["topic" := data["topic"]])
  {
    if "topic" in data && data["topic"].JStr? then Some(JObj(map["topic" := data["topic"]])) else None
  }

  /** `validate_route_input`. `explain` stands for the text of the model's
      validation error, which the message quotes. */
  function ValidateRouteInput(routeName: string, input: Json, explain: map<string, Json> -> string): (r: Result<Json>)
    ensures routeName == "fun_fact_city" ==>
              r == (if input.JStr? then Ok(input) else Err(AgentValidationError(StringExpected)))
    ensures routeName == "cityfacts" && !input.JObj? ==> r == Err(AgentValidationError(DictExpected))
    ensures routeName == "cityfacts" && input.JObj? ==>
              (r.Ok? <==> "topic" in input.fields && input.fields["topic"].JStr?)
              && (r.Ok? ==> r.value == JObj(map["topic" := input.fields["topic"]]))
              && (r.Err? ==> r.error.message == StructurePrefix + explain(input.fields))
    ensures routeName != "fun_fact_city" && routeName != "cityfacts" ==>
              r == Err(AgentValidationError("Unknown route: " + routeName))
  {
    if routeName == "fun_fact_city" then
      if input.JStr? then Ok(input) else Err(AgentValidationError(StringExpected))
    else if routeName == "cityfacts" then
      if !input.JObj? then Err(AgentValidationError(DictExpected))
      else match TopicInput(input.fields)
        case Some(v) => Ok(v)
        case None => Err(AgentValidationError(StructurePrefix + explain(input.fields)))
    else
      Err(AgentValidationError("Unknown route: " + routeName))
  }

  /** Validated input validates again to itself: the output of a route's
      validation is already in that route's accepted form. */
  lemma ValidationIdempotent(routeName: string, input: Json, explain: map<string, Json> -> string)
    requires ValidateRouteInput(routeName, input, explain).Ok?
    ensures ValidateRouteInput(routeName, ValidateRouteInput(routeName, input, explain).value, explain)
            == ValidateRouteInput(routeName, input, explain)
  {
    var v := ValidateRouteInput(routeName, input, explain).value;
    if routeName == "cityfacts" {
      assert v.JObj? && v.fields["topic"] == input.fields["topic"];
    }
  }
}
