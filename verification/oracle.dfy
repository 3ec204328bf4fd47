/**
 The classification oracle (the LLM behind the prompt template). The model keeps what
 the router hands to the template and what it gets back; rendering the template and the
 remote call itself are outside the model, so an oracle is any function from prompt
 arguments to a reply.
 */
module Oracle {
  import Departments

  /** Which of the two templates is rendered: bare label, or JSON with topic and department. */
  datatype Mode = LabelOnly | Structured

  /** The template variables: `departments` (the registry list) and `request`. */
  datatype PromptArgs = PromptArgs(mode: Mode, departments: seq<string>, request: string)

  /** `chain.invoke(...)` either returns a message whose `content` is text, or raises. */
  datatype Reply = Answer(text: string) | Failure

  /** The prompt arguments every classifier builds: always the registry list itself. */
  function PromptFor(mode: Mode, request: string): (p: PromptArgs)
    ensures p.mode == mode && p.request == request
    ensures forall name :: name in p.departments <==> Departments.IsDepartment(name)
  {
    PromptArgs(mode, Departments.Names, request)
  }
}
