/** The study-group record: `members` holds user ids, `createdAt` is epoch milliseconds. */
module GroupModel {
  import opened KotlinNumbers

  datatype Group = Group(
    id: string,
    name: string,
    description: string,
    members: seq<string>,
    createdBy: string,
    createdAt: Int64,
    whatsAppLink: string)
}
