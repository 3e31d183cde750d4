/**
 * The template renderer. Rendering a template is the abstract function
 * `template`; the only decision here is that an empty list of data renders
 * nothing.
 */
module NunjuckRender {
  import opened Wrappers
  import opened Js
  import opened TemplateEngine
  import opened Effects

  /** What `render` returns: nothing for an empty list, else the rendered text. */
  function Rendered(template: TemplateOptions -> string, options: TemplateOptions): (r: Option<string>)
    ensures r.None? <==> RendersNothing(options)
    ensures r.Some? ==> r.value == template(options)
  {
    if RendersNothing(options) then None else Some(template(options))
  }

  class NunjuckService {
    const rt: Runtime
    const template: TemplateOptions -> string

    constructor(rt: Runtime, template: TemplateOptions -> string)
      ensures this.rt == rt && this.template == template
    {
      this.rt := rt;
      this.template := template;
    }

    /** `render`: an empty list of data is not rendered; anything else is, once. */
    method Render(options: TemplateOptions) returns (content: Option<string>)
      modifies rt
      ensures content == Rendered(template, options)
      ensures rt.trace == old(rt.trace) + RenderEvents(options)
    {
      if RendersNothing(options) {
        content := None;
      } else {
        rt.Emit(Event.Render(options));
        content := Some(template(options));
      }
    }
  }

  /** The record of one `render` call. */
  function RenderEvents(options: TemplateOptions): (t: seq<Event>)
    ensures NoConnections(t)
    ensures |t| == if RendersNothing(options) then 0 else 1
  {
    if RendersNothing(options) then [] else [Event.Render(options)]
  }
}
