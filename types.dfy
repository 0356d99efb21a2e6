/** The two record kinds of the launcher and the drafts the forms produce. */
module Types {

  /** TypeScript's optional property: `None` is `undefined`. */
  datatype Option<+T> = None | Some(value: T)

  /** A saved shell command; `group` is optional. */
  datatype Command = Command(id: string, labelText: string, command: string, category: string, group: Option<string>)

  /** A bookmarked URL; `group` is optional. */
  datatype Link = Link(id: string, labelText: string, url: string, category: string, group: Option<string>)

  /** `Omit<Command, "id">`: what the add-command form submits. */
  datatype CommandDraft = CommandDraft(labelText: string, command: string, category: string, group: Option<string>)

  /** `Omit<Link, "id">`: what the link form submits. */
  datatype LinkDraft = LinkDraft(labelText: string, url: string, category: string, group: Option<string>)
}
