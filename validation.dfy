/** The validation context that a task's property sets validate into: the resolver and one
    mutable list of messages, shared by every property that is validated. */
module TaskValidation {
  import opened Wrappers
  import opened Paths

  /** The mutable message collection (a java.util.List<String>) that validation appends to. */
  class MessageList {
    var items: seq<string>

    constructor ()
      ensures items == []
    {
      items := [];
    }
  }

  /** Which of a task's property sets a validation call was made on. */
  datatype PropertyRole = Inputs | Outputs

  /** DefaultTaskValidationContext: the resolver and the message list it was built with, and a
      ghost log of the property sets validated into it, in call order. */
  class ValidationContext {
    const resolver: FileResolver
    const messages: MessageList
    ghost var validated: seq<PropertyRole>

    constructor (resolver: FileResolver, messages: MessageList)
      ensures this.resolver == resolver && this.messages == messages
      ensures validated == []
    {
      this.resolver := resolver;
      this.messages := messages;
      validated := [];
    }
  }

  /** What one abstract validation call does: the messages it appends, in order, and the
      exception it throws afterwards, if any. */
  datatype ValidationStep = ValidationStep(appended: seq<string>, thrown: Option<Exception>)

  /** The behaviour of a task's input or output property set under validate(context): it sees
      the context's resolver and reports what it appends and whether it throws. */
  type PropertySetValidation = FileResolver -> ValidationStep

  /** The task's property set of the given role. */
  function PropertySetOf(role: PropertyRole, inputs: PropertySetValidation, outputs: PropertySetValidation)
    : PropertySetValidation
  {
    if role == Inputs then inputs else outputs
  }

  /** TaskInputs.validate / TaskOutputs.validate: validates the task's property set of the given
      role, appends its messages to the context's list, keeps what was there, and reports the
      exception it throws. The context logs the role of the set validated. */
  method ValidatePropertySet(role: PropertyRole, inputs: PropertySetValidation,
                             outputs: PropertySetValidation, context: ValidationContext)
    returns (thrown: Option<Exception>)
    modifies context, context.messages
    ensures context.validated == old(context.validated) + [role]
    ensures context.messages.items
            == old(context.messages.items) + PropertySetOf(role, inputs, outputs)(context.resolver).appended
    ensures thrown == PropertySetOf(role, inputs, outputs)(context.resolver).thrown
  {
    var step := PropertySetOf(role, inputs, outputs)(context.resolver);
    context.messages.items := context.messages.items + step.appended;
    thrown := step.thrown;
    context.validated := context.validated + [role];
  }
}
