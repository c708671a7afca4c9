/** The record shapes that travel between the backend and the frontend: the
    `SocialPost` and `DashboardStats` interfaces of frontend/lib/api.ts, the
    trends and weather payloads of the two external-data endpoints, and the
    calls the frontend issues through its API client. */
module Types {
  import opened Common

  /** One social-media post. `id` is absent until the backend has stored the
      post. `engagement_rate` is derived from the counters
      (Models.EngagementRate), and `created_at`/`updated_at` are clock values;
      none of the three is stored here. `platform` and `status` are the strings
      the client sends; the backend accepts only its closed sets of choices. */
  datatype Post = Post(
    id: Option<int>,
    title: string,
    content: string,
    platform: string,
    status: string,
    likes: int,
    shares: int,
    comments: int,
    impressions: int,
    scheduledTime: Option<string>)

  /** The entries of a JSON object in insertion order (`Object.entries`). */
  type Entries = seq<(string, int)>

  datatype DashboardStats = DashboardStats(
    totalPosts: int,
    totalLikes: int,
    totalShares: int,
    totalComments: int,
    totalImpressions: int,
    avgEngagementRate: real,
    postsByPlatform: Entries,
    postsByStatus: Entries,
    recentPosts: seq<Post>)

  /** One entry of the trends feed, reshaped from an external post. */
  datatype Trend = Trend(id: int, title: string, content: string, engagement: int, source: string)

  /** Body of GET /social-trends/: `success` tells the two shapes apart. */
  datatype TrendsPayload =
    | TrendsSuccess(trends: seq<Trend>, message: string)
    | TrendsFailure(error: string, statusCode: Option<int>)
  {
    predicate Success() { TrendsSuccess? }
  }

  /** Body of GET /weather/; only its `success` flag matters to the dashboard. */
  datatype WeatherPayload = WeatherPayload(success: bool)

  /** One request issued through the API client. */
  datatype ApiCall =
    | ListPosts
    | CreatePost(data: Post)
    | UpdatePost(id: int, data: Post)
    | DeletePost(id: int)
    | GetDashboardStats
    | GetSocialTrends
    | GetWeatherData

  /** What an awaited API call settles to: its data, or a rejection carrying
      the `message` field of the error response body when there is one. */
  datatype Fetched<T> = Got(data: T) | Rejected(message: Option<string>)

  /** `post => post.id !== id` */
  function NotId(id: int): Post -> bool {
    (p: Post) => p.id != Some(id)
  }
}
