/** The records and the view enumeration shared by every part of the blog front-end. */
module Types {

  /** A value that may be absent, used for the nullable `selectedPost` and `error`. */
  datatype Option<+T> = None | Some(value: T)

  /** One blog entry. `views` is a JavaScript number; every value the program creates is an integer. */
  datatype BlogPost = BlogPost(
    id: string,
    title: string,
    excerpt: string,
    content: string,
    author: string,
    date: string,
    readTime: string,
    category: string,
    imageUrl: string,
    views: int)

  /** One point of the traffic chart. */
  datatype AnalyticsData = AnalyticsData(name: string, views: int, visitors: int)

  /** The four screens of the single-page application. */
  datatype AppView = Home | ReadPost | CreatePost | Analytics
}
